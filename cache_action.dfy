/** One step of a fetch plan (SandPlayerCacheAction): read a byte range
    from the local store, or fetch it from the network. */
module CacheAction {
  import opened Common
  import opened Strings

  /** SandPlayerCacheActionType, an Int-backed enum. */
  datatype ActionType = Local | Remote

  /** The enum's rawValue: cases are numbered from 0 in declaration order. */
  function RawValue(t: ActionType): (r: nat)
    ensures r < 2
  {
    match t
    case Local => 0
    case Remote => 1
  }

  /** The enum's failable `init?(rawValue:)`. */
  function FromRawValue(raw: int): (r: Option<ActionType>)
    ensures r.Some? <==> raw == 0 || raw == 1
  {
    if raw == 0 then Some(Local) else if raw == 1 then Some(Remote) else None
  }

  /** The two conversions are inverse: there are exactly two kinds, numbered 0 and 1. */
  lemma RawValueRoundTrip(t: ActionType, raw: int)
    ensures FromRawValue(RawValue(t)) == Some(t)
    ensures FromRawValue(raw).Some? ==> RawValue(FromRawValue(raw).value) == raw
  {
  }

  /** Foundation's NSRange; both fields are unsigned. */
  datatype NSRange = NSRange(location: nat, length: nat)

  /** SandPlayerCacheAction: `init(type:range:)` is the datatype constructor,
      which keeps both arguments as they are. */
  datatype CacheAction = CacheAction(kind: ActionType, range: NSRange)

  /** `String(describing: type)`: the name of the enum case. */
  function KindName(t: ActionType): string {
    match t
    case Local => "local"
    case Remote => "remote"
  }

  /** `NSStringFromRange`: "{location, length}". */
  function RangeString(r: NSRange): string {
    "{" + NatToString(r.location) + ", " + NatToString(r.length) + "}"
  }

  /** The string `hashValue` hashes: `String(format: "%@%@", NSStringFromRange(range), String(describing: type))`. */
  function HashKey(a: CacheAction): string {
    RangeString(a.range) + KindName(a.kind)
  }

  /** `hashValue`; `hash` stands for Swift's (per-process seeded) String hash. */
  function HashValue(a: CacheAction, hash: string -> int): int {
    hash(HashKey(a))
  }

  /** `==`: two actions are equal when their hash values are. */
  predicate Equal(a: CacheAction, b: CacheAction, hash: string -> int) {
    HashValue(a, hash) == HashValue(b, hash)
  }

  /** Actions built from the same type and range compare equal. */
  lemma SameFieldsAreEqual(a: CacheAction, b: CacheAction, hash: string -> int)
    requires a.kind == b.kind && a.range == b.range
    ensures Equal(a, b, hash)
  {
  }

  /** `==` is an equivalence relation, since it compares two Ints. */
  lemma EqualIsEquivalence(a: CacheAction, b: CacheAction, c: CacheAction, hash: string -> int)
    ensures Equal(a, a, hash)
    ensures Equal(a, b, hash) ==> Equal(b, a, hash)
    ensures Equal(a, b, hash) && Equal(b, c, hash) ==> Equal(a, c, hash)
  {
  }

  /** The Hashable contract holds: equal actions have equal hash values. */
  lemma EqualHasEqualHash(a: CacheAction, b: CacheAction, hash: string -> int)
    requires Equal(a, b, hash)
    ensures HashValue(a, hash) == HashValue(b, hash)
  {
  }

  lemma KindNameInjective(s: ActionType, t: ActionType)
    requires KindName(s) == KindName(t)
    ensures s == t
  {
  }

  /** HashKey regrouped so that each separator stands between its two neighbours. */
  lemma HashKeyShape(a: CacheAction)
    ensures HashKey(a) == ['{'] + (NatToString(a.range.location) + [','] +
      ([' '] + (NatToString(a.range.length) + ['}'] + KindName(a.kind))))
  {
  }

  lemma PeelHead(c: char, x: string, y: string)
    requires [c] + x == [c] + y
    ensures x == y
  {
    assert x == ([c] + x)[1..];
    assert y == ([c] + y)[1..];
  }

  /** The hashed string determines the action: distinct actions hash distinct strings. */
  lemma HashKeyInjective(a: CacheAction, b: CacheAction)
    ensures HashKey(a) == HashKey(b) <==> a == b
  {
    if HashKey(a) == HashKey(b) {
      var la, na, ka := NatToString(a.range.location), NatToString(a.range.length), KindName(a.kind);
      var lb, nb, kb := NatToString(b.range.location), NatToString(b.range.length), KindName(b.kind);
      NatToStringParses(a.range.location);
      NatToStringParses(a.range.length);
      NatToStringParses(b.range.location);
      NatToStringParses(b.range.length);
      HashKeyShape(a);
      HashKeyShape(b);
      PeelHead('{', la + [','] + ([' '] + (na + ['}'] + ka)), lb + [','] + ([' '] + (nb + ['}'] + kb)));
      SplitAtSeparator(la, [' '] + (na + ['}'] + ka), lb, [' '] + (nb + ['}'] + kb), ',');
      PeelHead(' ', na + ['}'] + ka, nb + ['}'] + kb);
      SplitAtSeparator(na, ka, nb, kb, '}');
      NatToStringInjective(a.range.location, b.range.location);
      NatToStringInjective(a.range.length, b.range.length);
      KindNameInjective(a.kind, b.kind);
    }
  }

  /** With a collision-free hash, the hash-based `==` is exactly structural equality. */
  lemma EqualIsStructuralForInjectiveHash(a: CacheAction, b: CacheAction, hash: string -> int)
    requires forall s, t :: hash(s) == hash(t) ==> s == t
    ensures Equal(a, b, hash) <==> a == b
  {
    HashKeyInjective(a, b);
  }

  /** With a colliding hash, two different actions can still compare equal. */
  lemma CollisionMakesDistinctActionsEqual(a: CacheAction, b: CacheAction, hash: string -> int)
    requires a != b && hash(HashKey(a)) == hash(HashKey(b))
    ensures Equal(a, b, hash) && HashKey(a) != HashKey(b)
  {
    HashKeyInjective(a, b);
  }
}
