/** Document identifiers as the document store parses and prints them, and the
    by-id lookup every route starts with. */
module Identity {

  datatype Option<+T> = None | Some(value: T)

  datatype Result<+T, +E> = Success(value: T) | Failure(error: E)

  /** A document id in printed form. Ids produced by the store are canonical:
      24 lower-case hexadecimal digits. */
  type Id = string

  predicate IsHexDigit(c: char) {
    '0' <= c <= '9' || 'a' <= c <= 'f' || 'A' <= c <= 'F'
  }

  predicate IsLowerHexDigit(c: char) {
    '0' <= c <= '9' || 'a' <= c <= 'f'
  }

  /** Text that casts to an object id: 24 hexadecimal digits of either case. */
  predicate IsObjectIdText(s: string) {
    |s| == 24 && forall i | 0 <= i < |s| :: IsHexDigit(s[i])
  }

  /** The form in which the store prints an object id. */
  predicate IsCanonical(s: string) {
    |s| == 24 && forall i | 0 <= i < |s| :: IsLowerHexDigit(s[i])
  }

  function LowerHex(c: char): (d: char)
    requires IsHexDigit(c)
    ensures IsLowerHexDigit(d)
    ensures IsLowerHexDigit(c) ==> d == c
  {
    if 'A' <= c <= 'F' then (c as int - 'A' as int + 'a' as int) as char else c
  }

  /** Casting a request parameter to an object id: text that is not 24 hex
      digits fails (the store raises a cast error); a valid text denotes the
      id whose printed form is its lower-case spelling. */
  function CastId(s: string): (r: Option<Id>)
    ensures r.Some? <==> IsObjectIdText(s)
    ensures r.Some? ==> IsCanonical(r.value)
    ensures r.Some? ==> |r.value| == |s| && forall i | 0 <= i < |s| ::
      r.value[i] == s[i] || ('A' <= s[i] <= 'F' && r.value[i] as int == s[i] as int + 32)
    ensures IsCanonical(s) ==> r == Some(s)
  {
    if IsObjectIdText(s) then
      var printed := seq(|s|, i requires 0 <= i < |s| => LowerHex(s[i]));
      assert IsCanonical(s) ==> printed == s;
      Some(printed)
    else
      None
  }

  /** Two spellings agree but for the case of their letters. */
  predicate SameIgnoringCase(a: string, b: string)
    requires IsObjectIdText(a) && IsObjectIdText(b)
  {
    forall i | 0 <= i < 24 :: LowerHex(a[i]) == LowerHex(b[i])
  }

  /** Two id texts denote the same id exactly when they differ at most in the
      case of their letters. */
  lemma CastIgnoresCase(a: string, b: string)
    requires IsObjectIdText(a) && IsObjectIdText(b)
    ensures CastId(a) == CastId(b) <==> SameIgnoringCase(a, b)
  {
    var x, y := CastId(a).value, CastId(b).value;
    assert forall i | 0 <= i < 24 :: x[i] == LowerHex(a[i]) && y[i] == LowerHex(b[i]);
    if SameIgnoringCase(a, b) {
      assert x == y;
    }
  }

  /** Every key of `m` is an id in the form the store prints. */
  predicate AllCanonical<V>(m: map<Id, V>) {
    forall k | k in m :: IsCanonical(k)
  }

  predicate NoDuplicates<T(==)>(s: seq<T>) {
    forall i, j | 0 <= i < j < |s| :: s[i] != s[j]
  }

  /** `ks` lists the ids of `m`, each once. */
  ghost predicate IsListing<V>(ks: seq<Id>, m: map<Id, V>) {
    |ks| == |m| && (forall k :: k in ks <==> k in m) && NoDuplicates(ks)
  }

  /** One id in front of a listing of the others lists the whole map. */
  lemma ListingCons<V>(m: map<Id, V>, k: Id, tail: seq<Id>)
    requires k in m && IsListing(tail, m - {k})
    ensures IsListing([k] + tail, m)
  {
    assert (m - {k}).Keys == m.Keys - {k};
    var ks := [k] + tail;
    assert k !in tail;
    forall i, j | 0 <= i < j < |ks| ensures ks[i] != ks[j] {
      assert ks[j] == tail[j - 1];
      if i > 0 {
        assert ks[i] == tail[i - 1];
      }
    }
  }

  /** The three outcomes of `findById(raw)`: a cast error, no document (null),
      or the document stored under the cast id. */
  datatype Lookup = CastError | Missing | Found(key: Id)

  function FindById<V>(m: map<Id, V>, raw: string): (r: Lookup)
    ensures r.CastError? <==> !IsObjectIdText(raw)
    ensures r.Missing? <==> IsObjectIdText(raw) && CastId(raw).value !in m
    ensures r.Found? ==> r.key in m && r.key == CastId(raw).value
  {
    match CastId(raw)
    case None => CastError
    case Some(key) => if key in m then Found(key) else Missing
  }
}
