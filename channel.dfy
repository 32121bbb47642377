/**
 * The socket address of a conversation (frontend/src/pages/Chat/index.jsx,
 * line 34): the larger of the two user ids, a slash, then the smaller one.
 * Both participants compute it on their own and so meet on the same channel.
 * Before a partner is chosen the partner id is `undefined`; JavaScript's
 * `user.id > undefined` is false, so the path is `undefined/<user.id>`.
 */
module Channel {
  import opened Wrappers
  import Numerals

  const Host := "ws://localhost:8000/"

  /** What a template literal writes for a missing value. */
  const Undefined := "undefined"

  /** The two path segments: `high` is missing only when no partner is selected. */
  datatype Key = Key(high: Option<int>, low: int)

  /** JavaScript's `a > b` when `b` may be `undefined` (a comparison with NaN: false). */
  predicate Above(a: int, b: Option<int>) {
    b.Some? && a > b.value
  }

  /** The two conditional expressions of the socket address. */
  function KeyOf(userId: int, partner: Option<int>): Key {
    if Above(userId, partner) then Key(Some(userId), partner.value) else Key(partner, userId)
  }

  function Segment(o: Option<int>): string {
    match o
    case None => Undefined
    case Some(n) => Numerals.FromInt(n)
  }

  function Render(k: Key): string {
    Segment(k.high) + "/" + Numerals.FromInt(k.low)
  }

  /** The path part of the socket address for the logged-in user and the selected partner. */
  function Path(userId: int, partner: Option<int>): string {
    Render(KeyOf(userId, partner))
  }

  function Url(userId: int, partner: Option<int>): string {
    Host + Path(userId, partner)
  }

  /** Splits at the first slash. */
  function SplitAtSlash(s: string): (r: Option<(string, string)>)
    ensures r.Some? ==> '/' !in r.value.0 && s == r.value.0 + "/" + r.value.1
  {
    if s == [] then None
    else if s[0] == '/' then Some(([], s[1..]))
    else match SplitAtSlash(s[1..])
      case None => None
      case Some((a, b)) => Some(([s[0]] + a, b))
  }

  function ParseSegment(s: string): Option<Option<int>> {
    if s == Undefined then Some(None)
    else match Numerals.ToInt(s)
      case None => None
      case Some(n) => Some(Some(n))
  }

  /** Reads a key back from a path; the reference that `Render` is checked against. */
  function Parse(path: string): Option<Key> {
    match SplitAtSlash(path)
    case None => None
    case Some((h, l)) =>
      match (ParseSegment(h), Numerals.ToInt(l))
      case (Some(high), Some(low)) => Some(Key(high, low))
      case _ => None
  }

  lemma {:induction false} SplitAtFirstSlash(a: string, b: string)
    requires '/' !in a
    ensures SplitAtSlash(a + "/" + b) == Some((a, b))
  {
    if a != [] {
      assert a[0] != '/' && (a + "/" + b)[0] == a[0];
      assert (a + "/" + b)[1..] == a[1..] + "/" + b;
      SplitAtFirstSlash(a[1..], b);
      assert [a[0]] + a[1..] == a;
    }
  }

  lemma ParseSegmentOf(o: Option<int>)
    ensures ParseSegment(Segment(o)) == Some(o)
  {
    if o.Some? {
      Numerals.ToIntFromInt(o.value);
    }
  }

  /** Rendering a key and reading it back gives the same key. */
  lemma ParseRender(k: Key)
    ensures Parse(Render(k)) == Some(k)
  {
    SplitAtFirstSlash(Segment(k.high), Numerals.FromInt(k.low));
    ParseSegmentOf(k.high);
    Numerals.ToIntFromInt(k.low);
  }

  /** With a partner selected, the path is `max/min` of the two ids. */
  lemma PathOfPair(userId: int, partnerId: int)
    ensures Path(userId, Some(partnerId))
         == Numerals.FromInt(if userId > partnerId then userId else partnerId) + "/"
          + Numerals.FromInt(if userId > partnerId then partnerId else userId)
  {
  }

  /** Without a partner, the path is `undefined/<user id>`. */
  lemma PathWithoutPartner(userId: int)
    ensures Path(userId, None) == "undefined/" + Numerals.FromInt(userId)
  {
  }

  /** Whoever of the two opens the chat, both reach the same channel. */
  lemma PathSymmetric(a: int, b: int)
    ensures Path(a, Some(b)) == Path(b, Some(a))
  {
  }

  /** Two pairs share a channel exactly when they are the same two users. */
  lemma PathIdentifiesPair(a: int, b: int, c: int, d: int)
    ensures Path(a, Some(b)) == Path(c, Some(d)) <==> (a == c && b == d) || (a == d && b == c)
  {
    if Path(a, Some(b)) == Path(c, Some(d)) {
      ParseRender(KeyOf(a, Some(b)));
      ParseRender(KeyOf(c, Some(d)));
    }
  }

  /** The placeholder channel used before any selection is never a pair's channel. */
  lemma PathWithoutPartnerIsNoPair(userId: int, a: int, b: int)
    ensures Path(userId, None) != Path(a, Some(b))
  {
    ParseRender(KeyOf(userId, None));
    ParseRender(KeyOf(a, Some(b)));
  }
}
