/** Shared vocabulary: optional values, the control plane's admission predicates and finite-set counting. */
module Base {

  datatype Option<+T> = None | Some(value: T)

  /** A clock value the control plane accepts (durable_state.timestamp). */
  predicate Timestamp(value: int) {
    0 <= value <= 253402300799
  }

  /** The white space Python's str.strip removes from either end. */
  predicate WhiteSpace(c: char) {
    var code := c as int;
    || 9 <= code <= 13 || 28 <= code <= 32
    || code in {0x85, 0xA0, 0x1680, 0x2028, 0x2029, 0x202F, 0x205F, 0x3000}
    || 0x2000 <= code <= 0x200A
  }

  /** A caller-supplied name: bounded, trimmed, without control characters (durable_state.identifier). */
  predicate Identifier(value: string, maximum: nat := 256) {
    && 0 < |value| <= maximum
    && !WhiteSpace(value[0]) && !WhiteSpace(value[|value| - 1])
    && forall i :: 0 <= i < |value| ==> value[i] as int >= 32
  }

  /** A label: a bounded run of letters, digits and a few marks that starts with a letter or digit. */
  predicate Label(s: string, maximum: nat) {
    && 1 <= |s| <= maximum && s[0] !in "_.:-"
    && forall i :: 0 <= i < |s| ==> 'A' <= s[i] <= 'Z' || 'a' <= s[i] <= 'z' || '0' <= s[i] <= '9' || s[i] in "_.:-"
  }

  /** A SHA-256 digest in lower-case hexadecimal. */
  predicate Hex(s: string) {
    |s| == 64 && forall i :: 0 <= i < |s| ==> 'a' <= s[i] <= 'f' || '0' <= s[i] <= '9'
  }

  /** No white space or control character of ASCII. */
  predicate Printable(s: string) {
    forall i :: 0 <= i < |s| ==> s[i] as int > 32 && s[i] as int != 127
  }

  /** Code-point order on strings, the order Python's sorted and SQLite's BINARY collation use. */
  predicate Precedes(a: string, b: string) {
    if b == "" then false
    else if a == "" then true
    else if a[0] == b[0] then Precedes(a[1..], b[1..])
    else a[0] < b[0]
  }

  lemma SingletonElements<T>(s: set<T>)
    requires |s| == 1
    ensures exists x :: x in s
    ensures forall x, y :: x in s && y in s ==> x == y
  {
    var x :| x in s;
    assert |s - {x}| == 0;
  }

  lemma {:induction false} SubsetSize<T>(a: set<T>, b: set<T>)
    requires a <= b
    ensures |a| <= |b|
  {
    assert b == a + (b - a);
  }

  /** An injective map has no more keys than values it may take. */
  lemma {:induction false} InjectiveSize<A, B>(m: map<A, B>, range: set<B>)
    requires forall x :: x in m ==> m[x] in range
    requires forall x, y :: x in m && y in m && m[x] == m[y] ==> x == y
    ensures |m.Keys| <= |range|
    decreases |m.Keys|
  {
    if m.Keys != {} {
      var x :| x in m.Keys;
      var rest := m - {x};
      assert rest.Keys == m.Keys - {x};
      InjectiveSize(rest, range - {m[x]});
    }
  }
}
