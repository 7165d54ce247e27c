/** The on-disk cache directory and its eviction (SandPlayerCacheManager):
    where a URL's cache file lives, how much the cache holds, and the
    age-then-size cleanup of old files. */
module CacheManager {
  import opened Common
  import opened Strings
  import opened CacheConfiguration

  // ---- paths ----

  const CacheFolderName: string := "customplayerCache"

  /** `cacheDirectory()`: the folder name appended to the temporary directory
      (`NSTemporaryDirectory()` ends with a slash). */
  function CacheDirectory(tmp: string): (r: string)
    ensures StartsWith(r, tmp) && |r| == |tmp| + |CacheFolderName|
  {
    tmp + CacheFolderName
  }

  /** `NSString.appendingPathComponent`: exactly one slash between the parts. */
  function AppendingPathComponent(base: string, c: string): (r: string)
    ensures StartsWith(r, base) && |r| >= |c| && r[|r| - |c|..] == c
    ensures base != [] && base[|base| - 1] == '/' ==> r == base + c
  {
    if base != [] && base[|base| - 1] == '/' then base + c else base + "/" + c
  }

  /** `components(separatedBy: ".").first`: everything before the first dot. */
  function BeforeFirstDot(s: string): (r: string)
    ensures StartsWith(s, r) && '.' !in r
    ensures r == s || s[|r|] == '.'
    decreases |s|
  {
    if s == [] || s[0] == '.' then [] else [s[0]] + BeforeFirstDot(s[1..])
  }

  /** `cacheFilePath(for:)`. The split by "." always has a first component,
      so the fallback branch of the source is never taken. `url` is the URL
      string, and `name` its `lastPathComponent`. */
  function CacheFilePath(tmp: string, url: string): string {
    var name := UrlLastPathComponent(url);
    AppendingPathComponent(CacheDirectory(tmp) + "/" + BeforeFirstDot(name), name)
  }

  /** The cache file of `url` sits in a folder named after the URL's last path
      component up to the first dot, inside the cache directory, and keeps
      that component as its own name; a query or fragment of the URL plays
      no part. */
  lemma CacheFilePathLayout(tmp: string, url: string)
    ensures var name := UrlLastPathComponent(url);
      name != [] && name != "/" ==> LastPathComponent(CacheFilePath(tmp, url)) == name
    ensures var name := UrlLastPathComponent(url);
      BeforeFirstDot(name) != [] && name != "/" ==>
        CacheFilePath(tmp, url) == CacheDirectory(tmp) + "/" + BeforeFirstDot(name) + "/" + name
    ensures forall c, rest :: '?' !in url && '#' !in url && (c == '?' || c == '#') ==>
      CacheFilePath(tmp, url + [c] + rest) == CacheFilePath(tmp, url)
  {
    var name := UrlLastPathComponent(url);
    var folder := CacheDirectory(tmp) + "/" + BeforeFirstDot(name);
    if name != [] && name != "/" {
      var d := BeforeFirstDot(name);
      if d != [] {
        assert d[|d| - 1] == name[|d| - 1];
        assert name[|d| - 1] in name;
      }
      if folder[|folder| - 1] == '/' {
        LastPathComponentAfterSlash(folder, name);
      } else {
        LastPathComponentAfterSlash(folder + "/", name);
      }
    }
    forall c, rest | '?' !in url && '#' !in url && (c == '?' || c == '#')
      ensures CacheFilePath(tmp, url + [c] + rest) == CacheFilePath(tmp, url)
    {
      UrlQueryIgnored(url, c, rest);
    }
  }

  // ---- the file system ----

  /** What the directory enumerator reports about one item (the three
      resource keys asked for); hidden files are not listed at all. */
  datatype Entry = Entry(path: string, isDirectory: bool, accessTime: Option<int>, size: Option<nat>)

  /** `p` lies strictly inside directory `dir`. */
  predicate Below(p: string, dir: string) {
    StartsWith(p, dir + "/")
  }

  lemma BelowTransitive(p: string, d: string, root: string)
    requires Below(p, d) && Below(d, root)
    ensures Below(p, root)
  {
    assert p[..|d|] == d;
    assert p[..|root| + 1] == d[..|root| + 1];
  }

  /** A directory enumeration of `dir`: every item strictly inside it, in order. */
  function Enumerate(fs: seq<Entry>, dir: string): seq<Entry>
    decreases |fs|
  {
    if fs == [] then []
    else Enumerate(fs[..|fs| - 1], dir) + (if Below(fs[|fs| - 1].path, dir) then [fs[|fs| - 1]] else [])
  }

  /** `removeItem(atPath:)` removes an item together with everything inside it;
      removing a missing item fails and changes nothing. */
  predicate Hit(e: Entry, p: string) {
    e.path == p || Below(e.path, p)
  }

  function Remove(fs: seq<Entry>, p: string): seq<Entry>
    decreases |fs|
  {
    if fs == [] then []
    else Remove(fs[..|fs| - 1], p) + (if Hit(fs[|fs| - 1], p) then [] else [fs[|fs| - 1]])
  }

  /** The sum of the allocated sizes the items report (items without one add nothing). */
  function SizeOf(es: seq<Entry>): nat
    decreases |es|
  {
    if es == [] then 0
    else SizeOf(es[..|es| - 1]) + (if es[|es| - 1].size.Some? then es[|es| - 1].size.value else 0)
  }

  function Paths(es: seq<Entry>): (r: seq<string>)
    ensures |r| == |es| && forall i :: 0 <= i < |es| ==> r[i] == es[i].path
    decreases |es|
  {
    if es == [] then [] else Paths(es[..|es| - 1]) + [es[|es| - 1].path]
  }

  lemma SizeOfSnoc(es: seq<Entry>, e: Entry)
    ensures SizeOf(es + [e]) == SizeOf(es) + (if e.size.Some? then e.size.value else 0)
  {
    assert (es + [e])[..|es|] == es;
  }

  /** Removing a directory below `root` takes at least that directory's
      enumerated size off the size of `root`. */
  lemma {:induction false} RemoveShrinks(fs: seq<Entry>, root: string, d: string)
    requires Below(d, root)
    ensures SizeOf(Enumerate(Remove(fs, d), root)) + SizeOf(Enumerate(fs, d)) <= SizeOf(Enumerate(fs, root))
    decreases |fs|
  {
    if fs != [] {
      var init, e := fs[..|fs| - 1], fs[|fs| - 1];
      RemoveShrinks(init, root, d);
      assert Enumerate(fs, d) == Enumerate(init, d) + (if Below(e.path, d) then [e] else []);
      assert Enumerate(fs, root) == Enumerate(init, root) + (if Below(e.path, root) then [e] else []);
      if Below(e.path, d) {
        BelowTransitive(e.path, d, root);
        assert Remove(fs, d) == Remove(init, d);
        SizeOfSnoc(Enumerate(init, d), e);
        SizeOfSnoc(Enumerate(init, root), e);
      } else if e.path == d {
        assert Remove(fs, d) == Remove(init, d);
        SizeOfSnoc(Enumerate(init, root), e);
      } else {
        var rem := Remove(init, d) + [e];
        assert Remove(fs, d) == rem;
        assert rem[..|rem| - 1] == Remove(init, d);
        assert Enumerate(rem, root) == Enumerate(Remove(init, d), root) + (if Below(e.path, root) then [e] else []);
        if Below(e.path, root) {
          SizeOfSnoc(Enumerate(Remove(init, d), root), e);
          SizeOfSnoc(Enumerate(init, root), e);
        } else {
          assert Enumerate(rem, root) == Enumerate(Remove(init, d), root);
          assert Enumerate(fs, root) == Enumerate(init, root);
        }
        assert Enumerate(fs, d) == Enumerate(init, d);
      }
    }
  }

  // ---- classification (`cachedFiles(atPath:onlyForCacheSize:)`) ----

  /** The expiry date: now minus `maxCacheAge`, or none when the age is negative.
      Dates are whole seconds. */
  function ExpiryDate(config: Configuration, now: int): (r: Option<int>)
    ensures r.None? <==> config.maxCacheAge < 0
    ensures r.Some? ==> r.value + config.maxCacheAge == now
  {
    if config.maxCacheAge < 0 then None else Some(now - config.maxCacheAge)
  }

  /** An item is expired when it was last accessed no later than the expiry
      date (`laterDate` of the two is the expiry date). Items without an
      access date never expire, and nothing expires when only sizing. */
  predicate IsExpired(e: Entry, onlyForCacheSize: bool, expiry: Option<int>) {
    !onlyForCacheSize && expiry.Some? && e.accessTime.Some? && e.accessTime.value <= expiry.value
  }

  function Expired(es: seq<Entry>, onlyForCacheSize: bool, expiry: Option<int>): seq<Entry>
    decreases |es|
  {
    if es == [] then []
    else
      var last := es[|es| - 1];
      Expired(es[..|es| - 1], onlyForCacheSize, expiry) + (if IsExpired(last, onlyForCacheSize, expiry) then [last] else [])
  }

  function Kept(es: seq<Entry>, onlyForCacheSize: bool, expiry: Option<int>): seq<Entry>
    decreases |es|
  {
    if es == [] then []
    else
      var last := es[|es| - 1];
      Kept(es[..|es| - 1], onlyForCacheSize, expiry) + (if IsExpired(last, onlyForCacheSize, expiry) then [] else [last])
  }

  function Directories(es: seq<Entry>): seq<Entry>
    decreases |es|
  {
    if es == [] then []
    else Directories(es[..|es| - 1]) + (if es[|es| - 1].isDirectory then [es[|es| - 1]] else [])
  }

  /** Every enumerated item is either expired or kept, never both. */
  lemma {:induction false} ExpiredKeptPartition(es: seq<Entry>, onlyForCacheSize: bool, expiry: Option<int>)
    ensures multiset(Expired(es, onlyForCacheSize, expiry)) + multiset(Kept(es, onlyForCacheSize, expiry)) == multiset(es)
    decreases |es|
  {
    if es != [] {
      ExpiredKeptPartition(es[..|es| - 1], onlyForCacheSize, expiry);
      assert es == es[..|es| - 1] + [es[|es| - 1]];
    }
  }

  /** When only sizing, nothing is classified for deletion and everything is counted. */
  lemma {:induction false} SizingKeepsEverything(es: seq<Entry>, expiry: Option<int>)
    ensures Expired(es, true, expiry) == [] && Kept(es, true, expiry) == es
    decreases |es|
  {
    if es != [] {
      SizingKeepsEverything(es[..|es| - 1], expiry);
    }
  }

  /** With a negative `maxCacheAge` nothing is age-expired. */
  lemma {:induction false} NegativeAgeExpiresNothing(es: seq<Entry>, config: Configuration, now: int)
    requires config.maxCacheAge < 0
    ensures Expired(es, false, ExpiryDate(config, now)) == []
    ensures Kept(es, false, ExpiryDate(config, now)) == es
    decreases |es|
  {
    if es != [] {
      NegativeAgeExpiresNothing(es[..|es| - 1], config, now);
    }
  }

  // ---- `keysSortedByValue` with the access-date comparator ----

  /** The comparator of the size pass: ascending access date, and `true`
      whenever either date is missing. */
  predicate AccessBefore(a: Entry, b: Entry) {
    if a.accessTime.Some? && b.accessTime.Some? then a.accessTime.value < b.accessTime.value else true
  }

  /** Inserts `x` before the first element it is ordered before. */
  function Insert(x: Entry, s: seq<Entry>): (r: seq<Entry>)
    ensures multiset(r) == multiset{x} + multiset(s)
    decreases |s|
  {
    if s == [] then [x]
    else if AccessBefore(x, s[0]) then [x] + s
    else
      assert s == [s[0]] + s[1..];
      [s[0]] + Insert(x, s[1..])
  }

  /** `sorted(by:)` on the dictionary's values, here as an insertion sort over
      the dictionary's entries in enumeration order. */
  function SortByAccess(s: seq<Entry>): (r: seq<Entry>)
    decreases |s|
  {
    if s == [] then [] else Insert(s[|s| - 1], SortByAccess(s[..|s| - 1]))
  }

  /** `keysSortedByValue`. */
  function KeysSortedByValue(dirs: seq<Entry>): seq<string> {
    Paths(SortByAccess(dirs))
  }

  predicate AllDated(s: seq<Entry>) {
    forall i :: 0 <= i < |s| ==> s[i].accessTime.Some?
  }

  predicate SortedByAccess(s: seq<Entry>)
    requires AllDated(s)
  {
    forall i, j :: 0 <= i < j < |s| ==> s[i].accessTime.value <= s[j].accessTime.value
  }

  lemma {:induction false} SortPermutes(s: seq<Entry>)
    ensures multiset(SortByAccess(s)) == multiset(s)
    decreases |s|
  {
    if s != [] {
      SortPermutes(s[..|s| - 1]);
      assert s == s[..|s| - 1] + [s[|s| - 1]];
    }
  }

  lemma InsertMembers(x: Entry, s: seq<Entry>)
    ensures forall e :: e in Insert(x, s) ==> e == x || e in s
  {
    forall e | e in Insert(x, s) ensures e == x || e in s {
      assert e in multiset(Insert(x, s));
    }
  }

  lemma ConsSorted(h: Entry, t: seq<Entry>)
    requires h.accessTime.Some? && AllDated(t) && SortedByAccess(t)
    requires forall j :: 0 <= j < |t| ==> h.accessTime.value <= t[j].accessTime.value
    ensures AllDated([h] + t) && SortedByAccess([h] + t)
  {
  }

  lemma {:induction false} InsertSorted(x: Entry, s: seq<Entry>)
    requires x.accessTime.Some? && AllDated(s) && SortedByAccess(s)
    ensures AllDated(Insert(x, s)) && SortedByAccess(Insert(x, s))
    decreases |s|
  {
    if s == [] {
    } else if AccessBefore(x, s[0]) {
      ConsSorted(x, s);
    } else {
      var t := Insert(x, s[1..]);
      InsertSorted(x, s[1..]);
      InsertMembers(x, s[1..]);
      forall j | 0 <= j < |t| ensures s[0].accessTime.value <= t[j].accessTime.value {
        assert t[j] in t;
        if t[j] != x {
          var k :| 0 <= k < |s[1..]| && s[1..][k] == t[j];
          assert s[k + 1] == t[j];
        }
      }
      ConsSorted(s[0], t);
    }
  }

  lemma {:induction false} SortSorts(s: seq<Entry>)
    requires AllDated(s)
    ensures AllDated(SortByAccess(s)) && SortedByAccess(SortByAccess(s))
    decreases |s|
  {
    if s != [] {
      SortSorts(s[..|s| - 1]);
      InsertSorted(s[|s| - 1], SortByAccess(s[..|s| - 1]));
    }
  }

  lemma {:induction false} InsertPaths(x: Entry, s: seq<Entry>)
    ensures multiset(Paths(Insert(x, s))) == multiset{x.path} + multiset(Paths(s))
    decreases |s|
  {
    if s == [] {
      assert Paths([x]) == [x.path];
    } else {
      var h, t := s[0], s[1..];
      assert s == [h] + t;
      PathsAppend([h], t);
      assert Paths([h]) == [h.path];
      if AccessBefore(x, h) {
        assert Insert(x, s) == [x] + s;
        PathsAppend([x], s);
        assert Paths([x]) == [x.path];
      } else {
        var i := Insert(x, t);
        assert Insert(x, s) == [h] + i;
        InsertPaths(x, t);
        PathsAppend([h], i);
        assert multiset(Paths([h] + i)) == multiset{h.path} + multiset(Paths(i));
        assert multiset(Paths(s)) == multiset{h.path} + multiset(Paths(t));
      }
    }
  }

  lemma {:induction false} SortPaths(s: seq<Entry>)
    ensures multiset(Paths(SortByAccess(s))) == multiset(Paths(s))
    decreases |s|
  {
    if s != [] {
      SortPaths(s[..|s| - 1]);
      InsertPaths(s[|s| - 1], SortByAccess(s[..|s| - 1]));
    }
  }

  lemma PathsAppend(a: seq<Entry>, b: seq<Entry>)
    ensures Paths(a + b) == Paths(a) + Paths(b)
  {
  }

  /** The sorted keys are exactly the dictionary's keys, each as often as it
      occurs, and when every entry has an access date they come in ascending
      access order. */
  lemma KeysSortedByValueCorrect(dirs: seq<Entry>)
    ensures multiset(KeysSortedByValue(dirs)) == multiset(Paths(dirs))
    ensures AllDated(dirs) ==>
      exists sorted :: Paths(sorted) == KeysSortedByValue(dirs) && multiset(sorted) == multiset(dirs) && AllDated(sorted) && SortedByAccess(sorted)
  {
    SortPermutes(dirs);
    SortPaths(dirs);
    if AllDated(dirs) {
      SortSorts(dirs);
    }
  }

  // ---- removal of the expired items ----

  /** The items listed are removed one after another, first to last. */
  function RemoveAll(fs: seq<Entry>, ps: seq<string>): seq<Entry>
    decreases |ps|
  {
    if ps == [] then fs else Remove(RemoveAll(fs, ps[..|ps| - 1]), ps[|ps| - 1])
  }

  predicate Survives(e: Entry, ps: seq<string>) {
    forall i :: 0 <= i < |ps| ==> !Hit(e, ps[i])
  }

  function Survivors(fs: seq<Entry>, ps: seq<string>): seq<Entry>
    decreases |fs|
  {
    if fs == [] then []
    else Survivors(fs[..|fs| - 1], ps) + (if Survives(fs[|fs| - 1], ps) then [fs[|fs| - 1]] else [])
  }

  lemma {:induction false} RemoveSurvivors(fs: seq<Entry>, ps: seq<string>, p: string)
    ensures Remove(Survivors(fs, ps), p) == Survivors(fs, ps + [p])
    decreases |fs|
  {
    if fs != [] {
      var init, e := fs[..|fs| - 1], fs[|fs| - 1];
      RemoveSurvivors(init, ps, p);
      assert Survives(e, ps + [p]) <==> Survives(e, ps) && !Hit(e, p) by {
        assert forall i :: 0 <= i < |ps| ==> (ps + [p])[i] == ps[i];
        assert (ps + [p])[|ps|] == p;
      }
      var sv := Survivors(init, ps);
      if Survives(e, ps) {
        assert (sv + [e])[..|sv|] == sv;
      } else {
        assert Survivors(fs, ps) == sv;
      }
    }
  }

  lemma {:induction false} SurvivorsOfNothing(fs: seq<Entry>)
    ensures Survivors(fs, []) == fs
    decreases |fs|
  {
    if fs != [] {
      SurvivorsOfNothing(fs[..|fs| - 1]);
    }
  }

  /** Removing the items one by one keeps exactly the items no removal hits. */
  lemma {:induction false} RemoveAllKeepsSurvivors(fs: seq<Entry>, ps: seq<string>)
    ensures RemoveAll(fs, ps) == Survivors(fs, ps)
    decreases |ps|
  {
    if ps == [] {
      SurvivorsOfNothing(fs);
    } else {
      var init := ps[..|ps| - 1];
      RemoveAllKeepsSurvivors(fs, init);
      RemoveSurvivors(fs, init, ps[|ps| - 1]);
      assert init + [ps[|ps| - 1]] == ps;
    }
  }

  lemma EnumerateSnoc(fs: seq<Entry>, e: Entry, dir: string)
    ensures Enumerate(fs + [e], dir) == Enumerate(fs, dir) + (if Below(e.path, dir) then [e] else [])
  {
    assert (fs + [e])[..|fs|] == fs;
  }

  lemma KeptSnoc(es: seq<Entry>, e: Entry, onlyForCacheSize: bool, expiry: Option<int>)
    ensures Kept(es + [e], onlyForCacheSize, expiry) ==
      Kept(es, onlyForCacheSize, expiry) + (if IsExpired(e, onlyForCacheSize, expiry) then [] else [e])
  {
    assert (es + [e])[..|es|] == es;
  }

  /** Once every expired item below `root` has been removed, what is left
      below `root` is no larger than the total of the kept items. */
  lemma {:induction false} SurvivorsWithinKept(fs: seq<Entry>, root: string, ps: seq<string>, expiry: Option<int>)
    requires forall i :: 0 <= i < |fs| && Below(fs[i].path, root) && IsExpired(fs[i], false, expiry) ==> fs[i].path in ps
    ensures SizeOf(Enumerate(Survivors(fs, ps), root)) <= SizeOf(Kept(Enumerate(fs, root), false, expiry))
    decreases |fs|
  {
    if fs != [] {
      var init, e := fs[..|fs| - 1], fs[|fs| - 1];
      assert forall i :: 0 <= i < |init| ==> init[i] == fs[i];
      SurvivorsWithinKept(init, root, ps, expiry);
      var sv := Survivors(init, ps);
      var en := Enumerate(init, root);
      var kp := Kept(en, false, expiry);
      assert fs == init + [e];
      EnumerateSnoc(init, e, root);
      var left := Enumerate(Survivors(fs, ps), root);
      if Survives(e, ps) {
        assert Survivors(fs, ps) == sv + [e];
        EnumerateSnoc(sv, e, root);
      } else {
        assert Survivors(fs, ps) == sv;
      }
      if Below(e.path, root) {
        assert Enumerate(fs, root) == en + [e];
        KeptSnoc(en, e, false, expiry);
        if IsExpired(e, false, expiry) {
          assert Kept(Enumerate(fs, root), false, expiry) == kp;
          assert !Survives(e, ps) by {
            assert fs[|fs| - 1] == e;
            var k :| 0 <= k < |ps| && ps[k] == e.path;
            assert Hit(e, ps[k]);
          }
          assert left == Enumerate(sv, root);
        } else {
          assert Kept(Enumerate(fs, root), false, expiry) == kp + [e];
          SizeOfSnoc(kp, e);
          if Survives(e, ps) {
            assert left == Enumerate(sv, root) + [e];
            SizeOfSnoc(Enumerate(sv, root), e);
          } else {
            assert left == Enumerate(sv, root);
          }
        }
      } else {
        assert Enumerate(fs, root) == en;
        if Survives(e, ps) {
          assert left == Enumerate(sv, root) + [];
        }
        assert left == Enumerate(sv, root);
      }
    }
  }

  lemma ExpiredSnoc(es: seq<Entry>, e: Entry, onlyForCacheSize: bool, expiry: Option<int>)
    ensures Expired(es + [e], onlyForCacheSize, expiry) ==
      Expired(es, onlyForCacheSize, expiry) + (if IsExpired(e, onlyForCacheSize, expiry) then [e] else [])
  {
    assert (es + [e])[..|es|] == es;
  }

  lemma {:induction false} ExpiredPathListed(fs: seq<Entry>, root: string, expiry: Option<int>, i: nat)
    requires i < |fs| && Below(fs[i].path, root) && IsExpired(fs[i], false, expiry)
    ensures fs[i].path in Paths(Expired(Enumerate(fs, root), false, expiry))
    decreases |fs|
  {
    var init, e := fs[..|fs| - 1], fs[|fs| - 1];
    assert fs == init + [e];
    EnumerateSnoc(init, e, root);
    var en := Enumerate(init, root);
    var ex := Expired(en, false, expiry);
    var all := Expired(Enumerate(fs, root), false, expiry);
    if Below(e.path, root) {
      assert Enumerate(fs, root) == en + [e];
      ExpiredSnoc(en, e, false, expiry);
      if IsExpired(e, false, expiry) {
        assert all == ex + [e];
        PathsAppend(ex, [e]);
        assert Paths(all) == Paths(ex) + [e.path];
      } else {
        assert all == ex;
      }
    } else {
      assert Enumerate(fs, root) == en;
      assert all == ex;
    }
    if i == |fs| - 1 {
      assert fs[i] == e;
    } else {
      assert init[i] == fs[i];
      ExpiredPathListed(init, root, expiry, i);
    }
  }

  /** Every expired item of an enumeration has its path on the delete list. */
  lemma ExpiredPathsListed(fs: seq<Entry>, root: string, expiry: Option<int>)
    ensures forall i :: 0 <= i < |fs| && Below(fs[i].path, root) && IsExpired(fs[i], false, expiry) ==>
      fs[i].path in Paths(Expired(Enumerate(fs, root), false, expiry))
  {
    forall i | 0 <= i < |fs| && Below(fs[i].path, root) && IsExpired(fs[i], false, expiry)
      ensures fs[i].path in Paths(Expired(Enumerate(fs, root), false, expiry))
    {
      ExpiredPathListed(fs, root, expiry, i);
    }
  }

  /** After the expired items are removed, the size of what is left below the
      cache directory is at most the total the classification counted. */
  lemma ExpiredRemovalWithinTotal(fs: seq<Entry>, root: string, expiry: Option<int>)
    ensures var expired := Paths(Expired(Enumerate(fs, root), false, expiry));
      SizeOf(Enumerate(RemoveAll(fs, expired), root)) <= SizeOf(Kept(Enumerate(fs, root), false, expiry))
  {
    var expired := Paths(Expired(Enumerate(fs, root), false, expiry));
    ExpiredPathsListed(fs, root, expiry);
    RemoveAllKeepsSurvivors(fs, expired);
    SurvivorsWithinKept(fs, root, expired, expiry);
  }

  // ---- where the paths lie ----

  predicate AllBelow(es: seq<Entry>, root: string) {
    forall i :: 0 <= i < |es| ==> Below(es[i].path, root)
  }

  lemma {:induction false} EnumerateBelow(fs: seq<Entry>, root: string)
    ensures AllBelow(Enumerate(fs, root), root)
    decreases |fs|
  {
    if fs != [] {
      EnumerateBelow(fs[..|fs| - 1], root);
    }
  }

  lemma AllBelowSnoc(es: seq<Entry>, e: Entry, root: string)
    requires AllBelow(es, root) && Below(e.path, root)
    ensures AllBelow(es + [e], root)
  {
  }

  lemma {:induction false} KeptBelow(es: seq<Entry>, root: string, expiry: Option<int>)
    requires AllBelow(es, root)
    ensures AllBelow(Kept(es, false, expiry), root)
    decreases |es|
  {
    if es != [] {
      var init, e := es[..|es| - 1], es[|es| - 1];
      assert AllBelow(init, root);
      KeptBelow(init, root, expiry);
      var k := Kept(init, false, expiry);
      if !IsExpired(e, false, expiry) {
        assert Kept(es, false, expiry) == k + [e];
        AllBelowSnoc(k, e, root);
      } else {
        assert Kept(es, false, expiry) == k + [];
      }
    }
  }

  lemma {:induction false} DirectoriesBelow(es: seq<Entry>, root: string)
    requires AllBelow(es, root)
    ensures AllBelow(Directories(es), root)
    decreases |es|
  {
    if es != [] {
      var init, e := es[..|es| - 1], es[|es| - 1];
      assert AllBelow(init, root);
      DirectoriesBelow(init, root);
      var k := Directories(init);
      if e.isDirectory {
        assert Directories(es) == k + [e];
        AllBelowSnoc(k, e, root);
      } else {
        assert Directories(es) == k + [];
      }
    }
  }

  /** Every directory the size pass visits lies inside the cache directory. */
  lemma SortedDirectoriesBelow(fs: seq<Entry>, root: string, expiry: Option<int>)
    ensures forall d :: d in KeysSortedByValue(Directories(Kept(Enumerate(fs, root), false, expiry))) ==> Below(d, root)
  {
    var dirs := Directories(Kept(Enumerate(fs, root), false, expiry));
    EnumerateBelow(fs, root);
    KeptBelow(Enumerate(fs, root), root, expiry);
    DirectoriesBelow(Kept(Enumerate(fs, root), false, expiry), root);
    KeysSortedByValueCorrect(dirs);
    forall d | d in KeysSortedByValue(dirs) ensures Below(d, root) {
      assert d in multiset(Paths(dirs));
      var i :| 0 <= i < |Paths(dirs)| && Paths(dirs)[i] == d;
    }
  }

  // ---- the size pass ----

  datatype SizePassResult = SizePassResult(fs: seq<Entry>, deleted: seq<string>, total: int)

  /** The loop over the sorted directories: each one's enumerated size comes
      off the running total, it is removed and listed, and the loop stops
      right after the total falls below the target. */
  function SizePass(fs: seq<Entry>, sorted: seq<string>, total: int, target: nat): SizePassResult
    decreases |sorted|
  {
    if sorted == [] then SizePassResult(fs, [], total)
    else
      var d := sorted[0];
      var t := total - SizeOf(Enumerate(fs, d));
      if t < target then SizePassResult(Remove(fs, d), [d], t)
      else
        var r := SizePass(Remove(fs, d), sorted[1..], t, target);
        SizePassResult(r.fs, [d] + r.deleted, r.total)
  }

  /** A size-pass result with `p` deleted before the ones it lists. */
  function Prefixed(p: seq<string>, r: SizePassResult): SizePassResult {
    SizePassResult(r.fs, p + r.deleted, r.total)
  }

  /** One iteration of the size pass, in terms of the state it leaves behind. */
  lemma SizePassStep(fsPrev: seq<Entry>, rest: seq<string>, totalPrev: int, target: nat, fs: seq<Entry>, total: int)
    requires rest != []
    requires fs == Remove(fsPrev, rest[0]) && total == totalPrev - SizeOf(Enumerate(fsPrev, rest[0]))
    ensures total < target ==> SizePass(fsPrev, rest, totalPrev, target) == SizePassResult(fs, [rest[0]], total)
    ensures total >= target ==> SizePass(fsPrev, rest, totalPrev, target) == Prefixed([rest[0]], SizePass(fs, rest[1..], total, target))
  {
  }

  /** The pass deletes a non-empty prefix of the sorted directories (when
      there are any), and it stops before the end only below the target. */
  lemma {:induction false} SizePassDeletesPrefix(fs: seq<Entry>, sorted: seq<string>, total: int, target: nat)
    ensures var r := SizePass(fs, sorted, total, target);
      |r.deleted| <= |sorted| && r.deleted == sorted[..|r.deleted|] &&
      (sorted != [] ==> |r.deleted| >= 1) &&
      (|r.deleted| < |sorted| ==> r.total < target)
    decreases |sorted|
  {
    if sorted != [] {
      var d := sorted[0];
      var fs1 := Remove(fs, d);
      var t := total - SizeOf(Enumerate(fs, d));
      SizePassStep(fs, sorted, total, target, fs1, t);
      if t >= target {
        SizePassDeletesPrefix(fs1, sorted[1..], t, target);
        var r1 := SizePass(fs1, sorted[1..], t, target);
        assert [d] + sorted[1..][..|r1.deleted|] == sorted[..|r1.deleted| + 1];
      }
    }
  }

  /** Running the pass on any shorter prefix of what it deleted leaves the
      total at or above the target: it stops right after the first deletion
      that brings the total below the target. */
  lemma {:induction false} SizePassStopsAtFirst(fs: seq<Entry>, sorted: seq<string>, total: int, target: nat)
    ensures var r := SizePass(fs, sorted, total, target);
      forall j :: 1 <= j < |r.deleted| && j <= |sorted| ==> SizePass(fs, sorted[..j], total, target).total >= target
    decreases |sorted|
  {
    if sorted != [] {
      var d := sorted[0];
      var fs1 := Remove(fs, d);
      var t := total - SizeOf(Enumerate(fs, d));
      SizePassStep(fs, sorted, total, target, fs1, t);
      if t >= target {
        SizePassStopsAtFirst(fs1, sorted[1..], t, target);
        var r1 := SizePass(fs1, sorted[1..], t, target);
        forall j | 1 <= j < 1 + |r1.deleted| && j <= |sorted| ensures SizePass(fs, sorted[..j], total, target).total >= target {
          var pre := sorted[..j];
          assert pre[0] == d;
          SizePassStep(fs, pre, total, target, fs1, t);
          assert pre[1..] == sorted[1..][..j - 1];
        }
      }
    }
  }

  /** The UInt running total never goes negative: as long as every visited
      directory lies inside `root` and the total starts at or above the size
      below `root`, it stays at or above the size of what is left there. */
  lemma {:induction false} SizePassNoUnderflow(fs: seq<Entry>, root: string, sorted: seq<string>, total: int, target: nat)
    requires forall d :: d in sorted ==> Below(d, root)
    requires total >= SizeOf(Enumerate(fs, root))
    ensures SizePass(fs, sorted, total, target).total >= SizeOf(Enumerate(SizePass(fs, sorted, total, target).fs, root))
    decreases |sorted|
  {
    if sorted != [] {
      var d := sorted[0];
      var fs1 := Remove(fs, d);
      var t := total - SizeOf(Enumerate(fs, d));
      RemoveShrinks(fs, root, d);
      SizePassStep(fs, sorted, total, target, fs1, t);
      if t >= target {
        assert forall x :: x in sorted[1..] ==> x in sorted;
        SizePassNoUnderflow(fs1, root, sorted[1..], t, target);
      }
    }
  }

  // ---- `cleanOldFiles` ----

  datatype CleanResult = CleanResult(fs: seq<Entry>, deleted: seq<string>, total: int)

  /** Whether the size pass runs: a positive budget that the kept total exceeds. */
  predicate OverBudget(config: Configuration, total: nat) {
    config.maxCacheSize > 0 && total > config.maxCacheSize
  }

  /** The whole cleanup: the file system afterwards, every path removed in
      order, and the final running total. */
  function CleanOldFilesSpec(fs: seq<Entry>, root: string, config: Configuration, now: int): CleanResult {
    var es := Enumerate(fs, root);
    var expiry := ExpiryDate(config, now);
    var expired := Paths(Expired(es, false, expiry));
    var fs1 := RemoveAll(fs, expired);
    var total := SizeOf(Kept(es, false, expiry));
    if OverBudget(config, total) then
      var p := SizePass(fs1, KeysSortedByValue(Directories(Kept(es, false, expiry))), total, config.maxCacheSize / 2);
      CleanResult(p.fs, expired + p.deleted, p.total)
    else CleanResult(fs1, expired, total)
  }

  /** The age-expired items come first on the delete list; the size pass
      adds directories only when over budget, and its running total never
      underflows. */
  lemma CleanOldFilesOutcome(fs: seq<Entry>, root: string, config: Configuration, now: int)
    ensures var r := CleanOldFilesSpec(fs, root, config, now);
      var es := Enumerate(fs, root);
      var expiry := ExpiryDate(config, now);
      var expired := Paths(Expired(es, false, expiry));
      var total := SizeOf(Kept(es, false, expiry));
      |r.deleted| >= |expired| && r.deleted[..|expired|] == expired &&
      (!OverBudget(config, total) ==> r.deleted == expired && r.fs == RemoveAll(fs, expired) && r.total == total) &&
      r.total >= 0
  {
    var es := Enumerate(fs, root);
    var expiry := ExpiryDate(config, now);
    var expired := Paths(Expired(es, false, expiry));
    var total := SizeOf(Kept(es, false, expiry));
    if OverBudget(config, total) {
      ExpiredRemovalWithinTotal(fs, root, expiry);
      SortedDirectoriesBelow(fs, root, expiry);
      SizePassNoUnderflow(RemoveAll(fs, expired), root,
        KeysSortedByValue(Directories(Kept(es, false, expiry))), total, config.maxCacheSize / 2);
    }
  }

  /** Over budget, the delete list goes on after the expired items with a
      non-empty prefix of the kept directories, sorted by access date
      (ascending when every one is dated), and stops before the end only once
      the running total is below half the budget. */
  lemma CleanOldFilesSizePass(fs: seq<Entry>, root: string, config: Configuration, now: int)
    ensures var r := CleanOldFilesSpec(fs, root, config, now);
      var es := Enumerate(fs, root);
      var expiry := ExpiryDate(config, now);
      var expired := Paths(Expired(es, false, expiry));
      var dirs := Directories(Kept(es, false, expiry));
      var sorted := KeysSortedByValue(dirs);
      var k := |r.deleted| - |expired|;
      OverBudget(config, SizeOf(Kept(es, false, expiry))) ==>
        && 0 <= k <= |sorted| && r.deleted[|expired|..] == sorted[..k]
        && (sorted != [] ==> k >= 1)
        && (k < |sorted| ==> r.total < config.maxCacheSize / 2)
        && multiset(sorted) == multiset(Paths(dirs))
        && (AllDated(dirs) ==> sorted == Paths(SortByAccess(dirs)) && AllDated(SortByAccess(dirs))
                               && SortedByAccess(SortByAccess(dirs)))
  {
    var es := Enumerate(fs, root);
    var expiry := ExpiryDate(config, now);
    var expired := Paths(Expired(es, false, expiry));
    var dirs := Directories(Kept(es, false, expiry));
    var total := SizeOf(Kept(es, false, expiry));
    if OverBudget(config, total) {
      var sorted := KeysSortedByValue(dirs);
      var p := SizePass(RemoveAll(fs, expired), sorted, total, config.maxCacheSize / 2);
      SizePassDeletesPrefix(RemoveAll(fs, expired), sorted, total, config.maxCacheSize / 2);
      assert (expired + p.deleted)[|expired|..] == p.deleted;
      KeysSortedByValueCorrect(dirs);
      if AllDated(dirs) {
        SortSorts(dirs);
      }
    }
  }

  /** With the default configuration the size pass never runs and every item
      accessed a week ago or earlier is deleted. */
  lemma DefaultConfigurationAgesOut(fs: seq<Entry>, root: string, now: int)
    ensures ExpiryDate(Default(), now) == Some(now - 604800)
    ensures var es := Enumerate(fs, root);
      CleanOldFilesSpec(fs, root, Default(), now).deleted == Paths(Expired(es, false, Some(now - 604800)))
  {
  }

  /** What a cleanup notification carries: the last path components of the
      removed items, in removal order. */
  function Names(paths: seq<string>): (r: seq<string>)
    ensures |r| == |paths| && forall i :: 0 <= i < |paths| ==> r[i] == LastPathComponent(paths[i])
    decreases |paths|
  {
    if paths == [] then [] else Names(paths[..|paths| - 1]) + [LastPathComponent(paths[|paths| - 1])]
  }

  /** What `cleanOldFiles` schedules on the main queue. */
  datatype MainEvent = DidCleanCache(names: seq<string>) | CompletionHandlerCalled

  /** The end of `cleanOldFiles` on the main queue: one DidCleanCache
      notification, exactly when something was removed, naming everything
      removed; then the completion handler, exactly when one was given. */
  function CleanupEvents(deleted: seq<string>, hasHandler: bool): (r: seq<MainEvent>)
    ensures |r| <= 2
    ensures deleted != [] <==> r != [] && r[0].DidCleanCache?
    ensures forall i :: 0 <= i < |r| && r[i].DidCleanCache? ==> i == 0 && r[i].names == Names(deleted)
    ensures CompletionHandlerCalled in r <==> hasHandler
    ensures hasHandler ==> r[|r| - 1] == CompletionHandlerCalled
  {
    (if |deleted| != 0 then [DidCleanCache(Names(deleted))] else [])
      + (if hasHandler then [CompletionHandlerCalled] else [])
  }

  /** What `cachedFiles(atPath:onlyForCacheSize:)` returns. */
  datatype Classification = Classification(urlsToDelete: seq<string>, diskCacheSize: nat, cachedFiles: seq<Entry>)

  /** The classification loop, item by item: an expired item goes on the
      delete list and is skipped; any other adds its size and, unless only
      sizing, is listed when it is a directory. */
  function Classify(es: seq<Entry>, onlyForCacheSize: bool, expiry: Option<int>): Classification
    decreases |es|
  {
    if es == [] then Classification([], 0, [])
    else
      var c := Classify(es[..|es| - 1], onlyForCacheSize, expiry);
      var e := es[|es| - 1];
      if IsExpired(e, onlyForCacheSize, expiry) then c.(urlsToDelete := c.urlsToDelete + [e.path])
      else
        Classification(c.urlsToDelete,
          c.diskCacheSize + (if e.size.Some? then e.size.value else 0),
          c.cachedFiles + (if !onlyForCacheSize && e.isDirectory then [e] else []))
  }

  lemma {:induction false} ClassifyDeletes(es: seq<Entry>, onlyForCacheSize: bool, expiry: Option<int>)
    ensures Classify(es, onlyForCacheSize, expiry).urlsToDelete == Paths(Expired(es, onlyForCacheSize, expiry))
    decreases |es|
  {
    if es != [] {
      var init, e := es[..|es| - 1], es[|es| - 1];
      ClassifyDeletes(init, onlyForCacheSize, expiry);
      assert es == init + [e];
      var ex := Expired(init, onlyForCacheSize, expiry);
      ExpiredSnoc(init, e, onlyForCacheSize, expiry);
      if IsExpired(e, onlyForCacheSize, expiry) {
        PathsAppend(ex, [e]);
      } else {
        assert Expired(es, onlyForCacheSize, expiry) == ex + [];
      }
    }
  }

  lemma {:induction false} ClassifySizes(es: seq<Entry>, onlyForCacheSize: bool, expiry: Option<int>)
    ensures Classify(es, onlyForCacheSize, expiry).diskCacheSize == SizeOf(Kept(es, onlyForCacheSize, expiry))
    decreases |es|
  {
    if es != [] {
      var init, e := es[..|es| - 1], es[|es| - 1];
      ClassifySizes(init, onlyForCacheSize, expiry);
      assert es == init + [e];
      var kp := Kept(init, onlyForCacheSize, expiry);
      KeptSnoc(init, e, onlyForCacheSize, expiry);
      if IsExpired(e, onlyForCacheSize, expiry) {
        assert Kept(es, onlyForCacheSize, expiry) == kp + [];
        assert Kept(es, onlyForCacheSize, expiry) == kp;
      } else {
        SizeOfSnoc(kp, e);
      }
    }
  }

  lemma {:induction false} SizingListsNoDirectories(es: seq<Entry>, expiry: Option<int>)
    ensures Classify(es, true, expiry).cachedFiles == []
    decreases |es|
  {
    if es != [] {
      SizingListsNoDirectories(es[..|es| - 1], expiry);
    }
  }

  lemma {:induction false} ClassifyDirectories(es: seq<Entry>, expiry: Option<int>)
    ensures Classify(es, false, expiry).cachedFiles == Directories(Kept(es, false, expiry))
    decreases |es|
  {
    if es != [] {
      var init, e := es[..|es| - 1], es[|es| - 1];
      var c := Classify(init, false, expiry);
      ClassifyDirectories(init, expiry);
      assert es == init + [e];
      var kp := Kept(init, false, expiry);
      KeptSnoc(init, e, false, expiry);
      if IsExpired(e, false, expiry) {
        assert Classify(es, false, expiry).cachedFiles == c.cachedFiles;
        assert Kept(es, false, expiry) == kp + [];
        assert Kept(es, false, expiry) == kp;
      } else {
        var d := if e.isDirectory then [e] else [];
        assert Classify(es, false, expiry).cachedFiles == c.cachedFiles + d;
        var kp' := kp + [e];
        assert Kept(es, false, expiry) == kp';
        assert kp'[..|kp|] == kp;
        assert Directories(kp') == Directories(kp) + d;
      }
    }
  }

  /** The loop's three results are the expired paths, the total size of the
      kept items, and the kept directories (none when only sizing). */
  lemma ClassifyCorrect(es: seq<Entry>, onlyForCacheSize: bool, expiry: Option<int>)
    ensures Classify(es, onlyForCacheSize, expiry).urlsToDelete == Paths(Expired(es, onlyForCacheSize, expiry))
    ensures Classify(es, onlyForCacheSize, expiry).diskCacheSize == SizeOf(Kept(es, onlyForCacheSize, expiry))
    ensures Classify(es, onlyForCacheSize, expiry).cachedFiles ==
      if onlyForCacheSize then [] else Directories(Kept(es, onlyForCacheSize, expiry))
  {
    ClassifyDeletes(es, onlyForCacheSize, expiry);
    ClassifySizes(es, onlyForCacheSize, expiry);
    if onlyForCacheSize {
      SizingListsNoDirectories(es, expiry);
    } else {
      ClassifyDirectories(es, expiry);
    }
  }

  /** SandPlayerCacheManager. `tmp` is NSTemporaryDirectory(); `fs` is every
      item FileManager reports, in enumeration order; `notices` records what
      cleanups post on the main queue, in order. */
  class Manager {
    const tmp: string
    var config: Configuration
    var fs: seq<Entry>
    var notices: seq<MainEvent>

    constructor (tmp: string, fs: seq<Entry>)
      ensures this.tmp == tmp && this.fs == fs && config == Default() && notices == []
    {
      this.tmp := tmp;
      this.fs := fs;
      config := Default();
      notices := [];
    }

    /** `cachedFiles(atPath:onlyForCacheSize:)`: the items to delete, the
        total size of the others, and the directories among the others. */
    method CachedFiles(path: string, onlyForCacheSize: bool, now: int)
      returns (urlsToDelete: seq<string>, diskCacheSize: nat, cachedFiles: seq<Entry>)
      ensures urlsToDelete == Paths(Expired(Enumerate(fs, path), onlyForCacheSize, ExpiryDate(config, now)))
      ensures diskCacheSize == SizeOf(Kept(Enumerate(fs, path), onlyForCacheSize, ExpiryDate(config, now)))
      ensures cachedFiles ==
        if onlyForCacheSize then [] else Directories(Kept(Enumerate(fs, path), onlyForCacheSize, ExpiryDate(config, now)))
    {
      var expiredDate: Option<int> := if config.maxCacheAge < 0 then None else Some(now - config.maxCacheAge);
      var es := Enumerate(fs, path);
      urlsToDelete, diskCacheSize, cachedFiles := [], 0, [];
      var i := 0;
      while i < |es|
        invariant 0 <= i <= |es|
        invariant Classification(urlsToDelete, diskCacheSize, cachedFiles) == Classify(es[..i], onlyForCacheSize, expiredDate)
      {
        var e := es[i];
        TakeOneMore(es, i);
        assert es[..i + 1][..i] == es[..i];
        if !onlyForCacheSize && expiredDate.Some? && e.accessTime.Some? && e.accessTime.value <= expiredDate.value {
          urlsToDelete := urlsToDelete + [e.path];
        } else {
          if !onlyForCacheSize && e.isDirectory {
            cachedFiles := cachedFiles + [e];
          }
          if e.size.Some? {
            diskCacheSize := diskCacheSize + e.size.value;
          }
        }
        i := i + 1;
      }
      assert es[..i] == es;
      assert expiredDate == ExpiryDate(config, now);
      ClassifyCorrect(es, onlyForCacheSize, expiredDate);
    }

    /** `calculateCacheSize`: the size of everything in the cache directory;
        it deletes nothing. */
    method CalculateCacheSize(now: int) returns (size: nat)
      ensures size == SizeOf(Enumerate(fs, CacheDirectory(tmp)))
    {
      var urls, dirs;
      urls, size, dirs := CachedFiles(CacheDirectory(tmp), true, now);
      SizingKeepsEverything(Enumerate(fs, CacheDirectory(tmp)), ExpiryDate(config, now));
    }

    /** `removeItem`, with its errors absorbed. */
    method RemoveItem(p: string)
      modifies this
      ensures fs == Remove(old(fs), p)
      ensures config == old(config) && notices == old(notices)
    {
      fs := Remove(fs, p);
    }

    /** `cleanAllCache`: the cache directory goes, with everything in it. */
    method CleanAllCache()
      modifies this
      ensures fs == Remove(old(fs), CacheDirectory(tmp))
      ensures config == old(config) && notices == old(notices)
    {
      RemoveItem(CacheDirectory(tmp));
    }

    /** The first loop of `cleanOldFiles`: remove each listed item in order. */
    method DeleteAll(ps: seq<string>)
      modifies this
      ensures fs == RemoveAll(old(fs), ps)
      ensures config == old(config) && notices == old(notices)
    {
      var i := 0;
      while i < |ps|
        invariant 0 <= i <= |ps|
        invariant fs == RemoveAll(old(fs), ps[..i])
        invariant config == old(config) && notices == old(notices)
      {
        assert ps[..i + 1][..i] == ps[..i];
        RemoveItem(ps[i]);
        i := i + 1;
      }
      assert ps[..|ps|] == ps;
    }

    /** The second loop of `cleanOldFiles`: take each directory's size off the
        running total, remove it, and stop once the total is below the target.
        The total stays at or above what is left below `root`, so the UInt
        subtraction never underflows. */
    method ShrinkToTarget(root: string, sortedFiles: seq<string>, total: nat, targetSize: nat, now: int)
      returns (deleted: seq<string>, diskCacheSize: nat)
      requires forall d :: d in sortedFiles ==> Below(d, root)
      requires total >= SizeOf(Enumerate(fs, root))
      modifies this
      ensures fs == SizePass(old(fs), sortedFiles, total, targetSize).fs
      ensures deleted == SizePass(old(fs), sortedFiles, total, targetSize).deleted
      ensures diskCacheSize == SizePass(old(fs), sortedFiles, total, targetSize).total
      ensures config == old(config) && notices == old(notices)
    {
      ghost var r0 := SizePass(fs, sortedFiles, total, targetSize);
      diskCacheSize := total;
      deleted := [];
      var j := 0;
      while j < |sortedFiles|
        invariant 0 <= j <= |sortedFiles|
        invariant r0 == Prefixed(deleted, SizePass(fs, sortedFiles[j..], diskCacheSize, targetSize))
        invariant deleted == sortedFiles[..j]
        invariant diskCacheSize >= SizeOf(Enumerate(fs, root))
        invariant config == old(config) && notices == old(notices)
      {
        var fileURL := sortedFiles[j];
        ghost var fsPrev, totalPrev, rest, prev := fs, diskCacheSize, sortedFiles[j..], deleted;
        TakeOneMore(sortedFiles, j);
        var sub, cacheSize, subDirs := CachedFiles(fileURL, true, now);
        SizingKeepsEverything(Enumerate(fs, fileURL), ExpiryDate(config, now));
        RemoveShrinks(fs, root, fileURL);
        diskCacheSize := diskCacheSize - cacheSize;
        RemoveItem(fileURL);
        deleted := deleted + [fileURL];
        j := j + 1;
        SizePassStep(fsPrev, rest, totalPrev, targetSize, fs, diskCacheSize);
        if diskCacheSize < targetSize {
          break;
        }
        AppendRegroup(prev, fileURL, SizePass(fs, rest[1..], diskCacheSize, targetSize).deleted);
      }
    }

    /** `cleanOldFiles`: remove the expired items, then, when over budget,
        directories in ascending access order until below half the budget,
        then post the names of everything removed and call the completion
        handler, if one is given. */
    method CleanOldFiles(now: int, hasHandler: bool) returns (deleted: seq<string>)
      modifies this
      ensures fs == CleanOldFilesSpec(old(fs), CacheDirectory(tmp), old(config), now).fs
      ensures deleted == CleanOldFilesSpec(old(fs), CacheDirectory(tmp), old(config), now).deleted
      ensures notices == old(notices) + CleanupEvents(deleted, hasHandler)
      ensures config == old(config)
    {
      var root := CacheDirectory(tmp);
      ghost var fs0 := fs;
      ghost var expiry := ExpiryDate(config, now);
      var urlsToDelete, diskCacheSize, cachedFiles := CachedFiles(root, false, now);
      DeleteAll(urlsToDelete);
      if config.maxCacheSize > 0 && diskCacheSize > config.maxCacheSize {
        var targetSize := config.maxCacheSize / 2;
        var sortedFiles := KeysSortedByValue(cachedFiles);
        ExpiredRemovalWithinTotal(fs0, root, expiry);
        SortedDirectoriesBelow(fs0, root, expiry);
        var removed, remaining := ShrinkToTarget(root, sortedFiles, diskCacheSize, targetSize, now);
        urlsToDelete := urlsToDelete + removed;
      }
      deleted := urlsToDelete;
      PostCleanup(deleted, hasHandler);
    }

    /** The main-queue block at the end of `cleanOldFiles`. */
    method PostCleanup(deleted: seq<string>, hasHandler: bool)
      modifies this
      ensures notices == old(notices) + CleanupEvents(deleted, hasHandler)
      ensures fs == old(fs) && config == old(config)
    {
      if |deleted| != 0 {
        notices := notices + [DidCleanCache(Names(deleted))];
      }
      if hasHandler {
        notices := notices + [CompletionHandlerCalled];
      }
    }
  }
}
