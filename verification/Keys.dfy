/**
 The object keys of the service. The code builds them as strings
 (internal/handler/handler.go:152, internal/worker/service.go:57-58); the rest of the model
 works on the structured value, which `TextInjective` shows to lose nothing.
 */
module Keys {
  type UserId = string
  type MsgId = string

  datatype Key =
    | NoKey                            // the empty string
    | Staging(user: UserId, id: MsgId)
    | Original(user: UserId)
    | Thumb(user: UserId)

  /** The object name that the code passes to the object store. */
  function Text(k: Key): string {
    match k
    case NoKey => ""
    case Staging(u, m) => "staging/" + u + "/" + m
    case Original(u) => "avatars/" + u + "/original.png"
    case Thumb(u) => "avatars/" + u + "/thumb.png"
  }

  /** Message ids are UUIDs: no slash. User ids are whatever the URL carried. */
  predicate SlashFree(m: MsgId) {
    '/' !in m
  }

  predicate WellFormed(k: Key) {
    k.Staging? ==> SlashFree(k.id)
  }

  predicate OwnedBy(k: Key, u: UserId) {
    k != NoKey && k.user == u
  }

  /** In a name with a slash-free tail, no slash follows the split. */
  lemma NoSlashInTail(a: string, m: string)
    requires SlashFree(m)
    ensures forall i :: |a| < i < |a| + 1 + |m| ==> (a + "/" + m)[i] != '/'
  {
    assert forall i :: |a| < i < |a| + 1 + |m| ==> (a + "/" + m)[i] == m[i - |a| - 1];
  }

  /** A string splits in only one way at its last slash. */
  lemma SplitAtLastSlash(a: string, m: string, b: string, n: string)
    requires a + "/" + m == b + "/" + n
    requires SlashFree(m) && SlashFree(n)
    ensures a == b && m == n
  {
    var s, t := a + "/" + m, b + "/" + n;
    assert s[|a|] == '/' && t[|b|] == '/';
    NoSlashInTail(a, m);
    NoSlashInTail(b, n);
    assert |a| == |b|;
    assert a == s[..|a|] && b == t[..|b|];
    assert m == s[|a| + 1..] && n == t[|b| + 1..];
  }

  /** Removing a common prefix and a common suffix. */
  lemma StripEnds(p: string, u: string, v: string, q: string)
    requires p + u + q == p + v + q
    ensures u == v
  {
    assert u == (p + u + q)[|p|..|p| + |u|];
    assert v == (p + v + q)[|p|..|p| + |v|];
  }

  /**
   Distinct keys have distinct names, for arbitrary user ids (slashes included) and
   slash-free message ids: the three schemes are injective and pairwise disjoint, and none
   of them is the empty name that `Delete` skips.
   */
  lemma TextInjective(k: Key, l: Key)
    requires WellFormed(k) && WellFormed(l)
    ensures Text(k) == Text(l) <==> k == l
  {
    hide Text, SlashFree;
    FirstAndFifthLast(k);
    FirstAndFifthLast(l);
    if Text(k) == Text(l) {
      match (k, l) {
        case (Staging(u, m), Staging(v, n)) => StagingInjective(u, m, v, n);
        case (Original(u), Original(v)) => ResultsInjective(u, v);
        case (Thumb(u), Thumb(v)) => ResultsInjective(u, v);
        case _ =>
      }
    }
  }

  lemma StagingInjective(u: UserId, m: MsgId, v: UserId, n: MsgId)
    requires SlashFree(m) && SlashFree(n) && Text(Staging(u, m)) == Text(Staging(v, n))
    ensures u == v && m == n
  {
    hide SlashFree;
    WithoutPrefix("staging/", u, m);
    WithoutPrefix("staging/", v, n);
    SplitAtLastSlash(u, m, v, n);
  }

  lemma WithoutPrefix(p: string, u: string, m: string)
    ensures (p + u + "/" + m)[|p|..] == u + "/" + m
  {
    assert p + u + "/" + m == p + (u + "/" + m);
  }

  lemma ResultsInjective(u: UserId, v: UserId)
    ensures Text(Original(u)) == Text(Original(v)) ==> u == v
    ensures Text(Thumb(u)) == Text(Thumb(v)) ==> u == v
  {
    if Text(Original(u)) == Text(Original(v)) {
      StripEnds("avatars/", u, v, "/original.png");
    }
    if Text(Thumb(u)) == Text(Thumb(v)) {
      StripEnds("avatars/", u, v, "/thumb.png");
    }
  }

  /** What tells the schemes apart: the first character, and the fifth from the end. */
  lemma FirstAndFifthLast(k: Key)
    ensures var t := Text(k);
      match k
      case NoKey => t == ""
      case Staging(_, _) => |t| > 0 && t[0] == 's'
      case Original(_) => |t| > 5 && t[0] == 'a' && t[|t| - 5] == 'l'
      case Thumb(_) => |t| > 5 && t[0] == 'a' && t[|t| - 5] == 'b'
  {
  }

  /** The names as the code writes them, for a user id with a slash in it. */
  lemma NamesOfKeys()
    ensures Text(Staging("team/ann", "id1")) == "staging/team/ann/id1"
    ensures Text(Original("team/ann")) == "avatars/team/ann/original.png"
    ensures Text(Thumb("team/ann")) == "avatars/team/ann/thumb.png"
  {
  }

  /** Without the slash-free ids the staging scheme does collide. */
  lemma SlashInIdCollides()
    ensures exists k: Key, l: Key :: k != l && Text(k) == Text(l)
  {
    var k, l := Staging("a/b", "c"), Staging("a", "b/c");
    assert Text(k) == "staging/a/b/c" == Text(l);
    assert k.user != l.user by { assert |k.user| == 3 && |l.user| == 1; }
  }
}
