/**
 * The collaboration REST route (app/api/collaboration/route.ts): an in-memory map from document
 * id to the user ids currently collaborating on it, in the order they joined, with GET (list), POST (join and record)
 * and DELETE (leave) handlers, and the per-user colour derived from a 32-bit string hash.
 * The signed-in user, the user table and the database's failure are inputs.
 */
module CollaborationRoute {
  import opened Wrappers
  import opened Text

  const TwoTo32: int := 0x1_0000_0000
  const TwoTo31: int := 0x8000_0000

  /** JavaScript's ToInt32: the integer reduced modulo 2^32 into [-2^31, 2^31). */
  function ToInt32(x: int): (r: int)
    ensures -TwoTo31 <= r < TwoTo31
  {
    var m := x % TwoTo32;
    if m >= TwoTo31 then m - TwoTo32 else m
  }

  /** One step of the colour hash's `reduce`: `a = ((a << 5) - a) + code; return a & a`. */
  function HashStep(a: int, code: int): int
  {
    ToInt32(ToInt32(a * 32) - a + code)
  }

  /** The reduce over the characters of `s`, from the left, starting at 0. */
  function Hash(s: string): int
  {
    if s == [] then 0 else HashStep(Hash(s[..|s| - 1]), s[|s| - 1] as int)
  }

  /** The reference definition: the polynomial sum of c_i * 31^(n-1-i) over the character codes. */
  function Poly(s: string): int
  {
    if s == [] then 0 else 31 * Poly(s[..|s| - 1]) + s[|s| - 1] as int
  }

  lemma ToInt32Offset(x: int)
    ensures ToInt32(x) == x + (-(x / TwoTo32) - (if x % TwoTo32 >= TwoTo31 then 1 else 0)) * TwoTo32
  {
  }

  lemma ToInt32Shift(x: int, k: int)
    ensures ToInt32(x + k * TwoTo32) == ToInt32(x)
  {
    assert (x + k * TwoTo32) % TwoTo32 == x % TwoTo32;
  }

  /** The shifting-and-masking hash equals the 32-bit reduction of the plain polynomial hash. */
  lemma {:induction false} HashIsPoly(s: string)
    ensures Hash(s) == ToInt32(Poly(s))
  {
    if s != [] {
      var p := s[..|s| - 1];
      var c := s[|s| - 1] as int;
      HashIsPoly(p);
      var h := Hash(p);
      var k2 := -(Poly(p) / TwoTo32) - (if Poly(p) % TwoTo32 >= TwoTo31 then 1 else 0);
      ToInt32Offset(Poly(p));
      assert h == Poly(p) + k2 * TwoTo32;
      var k1 := -((h * 32) / TwoTo32) - (if (h * 32) % TwoTo32 >= TwoTo31 then 1 else 0);
      ToInt32Offset(h * 32);
      assert ToInt32(h * 32) == h * 32 + k1 * TwoTo32;
      assert ToInt32(h * 32) - h + c == (31 * Poly(p) + c) + (31 * k2 + k1) * TwoTo32;
      ToInt32Shift(31 * Poly(p) + c, 31 * k2 + k1);
    }
  }

  const Palette: seq<string> := ["#ff6b6b", "#4ecdc4", "#45b7d1", "#96ceb4", "#feca57",
                                 "#ff9ff3", "#54a0ff", "#5f27cd", "#00d2d3", "#ff9f43"]

  function Abs(x: int): nat
  {
    if x < 0 then -x else x
  }

  /** `getRandomColor(userId)`: a palette entry chosen by the user id's hash. */
  function ColorFor(userId: string): (color: string)
    ensures color in Palette
    ensures color == Palette[Abs(ToInt32(Poly(userId))) % |Palette|]
  {
    HashIsPoly(userId);
    Palette[Abs(Hash(userId)) % |Palette|]
  }

  /** A row of the user table: the fields the handler selects. */
  datatype UserRecord = UserRecord(name: Option<string>, email: Option<string>)

  datatype Collaborator = Collaborator(id: string, name: Option<string>, color: string)

  /** The ids of a list of collaborators. */
  function Ids(list: seq<Collaborator>): (ids: set<string>)
    ensures forall i :: 0 <= i < |list| ==> list[i].id in ids
  {
    if list == [] then {} else Ids(list[..|list| - 1]) + {list[|list| - 1].id}
  }

  /** `user.name || user.email`: the name when it is non-empty, else the email. */
  function DisplayName(u: UserRecord): (name: Option<string>)
    ensures Present(name) <==> Present(u.name) || Present(u.email)
    ensures Present(name) ==> name == u.name || name == u.email
    ensures Present(u.name) ==> name == u.name
  {
    if Present(u.name) then u.name else u.email
  }

  function CollaboratorOf(id: string, u: UserRecord): (c: Collaborator)
    ensures c.id == id && c.name == DisplayName(u) && c.color in Palette
    ensures c.color == ColorFor(id)
  {
    Collaborator(id, DisplayName(u), ColorFor(id))
  }

  datatype Response =
    | Unauthorized
    | MissingDocumentId
    | Collaborators(list: seq<Collaborator>)
    | Recorded
    | Removed
    | InternalError

  function Status(r: Response): int
  {
    match r
    case Unauthorized => 401
    case MissingDocumentId => 400
    case InternalError => 500
    case _ => 200
  }

  /** The message of an error body, or of a success body's `message`. */
  function Message(r: Response): string
  {
    match r
    case Unauthorized => "Unauthorized"
    case MissingDocumentId => "Document ID is required"
    case Recorded => "Collaboration update recorded"
    case Removed => "User removed from collaboration"
    case InternalError => "Internal server error"
    case Collaborators(_) => ""
  }

  /** Each document's collaborators, in the order a JavaScript `Set` enumerates them: the order in
      which they were first added. */
  type Registry = map<string, seq<string>>

  predicate Distinct(s: seq<string>)
  {
    forall i, j :: 0 <= i < j < |s| ==> s[i] != s[j]
  }

  /** No document is kept with an empty set of collaborators, and no user is listed twice. */
  ghost predicate Inv(m: Registry)
  {
    forall d :: d in m ==> m[d] != [] && Distinct(m[d])
  }

  function Active(m: Registry, documentId: string): seq<string>
  {
    if documentId in m then m[documentId] else []
  }

  /** `set.add(x)`: a new member goes last; a member already there keeps its place. */
  function Added(s: seq<string>, x: string): (r: seq<string>)
    ensures forall y :: y in r <==> y in s || y == x
    ensures Distinct(s) ==> Distinct(r)
    ensures |r| >= |s| && r[..|s|] == s
  {
    if x in s then s else s + [x]
  }

  /** `set.delete(x)`: the member is removed and the others keep their order. */
  function Erase(s: seq<string>, x: string): (r: seq<string>)
    ensures forall y :: y in r <==> y in s && y != x
    ensures Distinct(s) ==> Distinct(r)
    ensures |r| <= |s|
  {
    if s == [] then []
    else
      var rest := Erase(s[1..], x);
      assert forall y :: y in s <==> y == s[0] || y in s[1..];
      if s[0] == x then rest
      else
        assert Distinct(s) ==> s[0] !in s[1..] by {
          if Distinct(s) {
            forall k | 0 <= k < |s[1..]| ensures s[1..][k] != s[0] {
              assert s[1..][k] == s[k + 1];
            }
          }
        }
        assert Distinct(s) ==> Distinct(s[1..]) by {
          if Distinct(s) {
            forall i, j | 0 <= i < j < |s[1..]| ensures s[1..][i] != s[1..][j] {
              assert s[1..][i] == s[i + 1] && s[1..][j] == s[j + 1];
            }
          }
        }
        [s[0]] + rest
  }

  /** Erasing from two lists one after the other is erasing from each: the order is kept. */
  lemma {:induction false} EraseAppend(a: seq<string>, b: seq<string>, x: string)
    ensures Erase(a + b, x) == Erase(a, x) + Erase(b, x)
  {
    if a != [] {
      assert (a + b)[1..] == a[1..] + b;
      EraseAppend(a[1..], b, x);
    } else {
      assert a + b == b;
    }
  }

  /** Erasing a non-member changes nothing. */
  lemma {:induction false} EraseAbsent(s: seq<string>, x: string)
    requires x !in s
    ensures Erase(s, x) == s
  {
    if s != [] {
      EraseAbsent(s[1..], x);
    }
  }

  /** POST's registration of the signed-in user on a document. */
  function Add(m: Registry, documentId: string, userId: string): (m': Registry)
    ensures forall u :: u in Active(m', documentId) <==> u in Active(m, documentId) || u == userId
    ensures |Active(m', documentId)| >= |Active(m, documentId)|
    ensures Active(m', documentId)[..|Active(m, documentId)|] == Active(m, documentId)
    ensures forall d :: d != documentId ==> Active(m', d) == Active(m, d)
    ensures Inv(m) ==> Inv(m')
  {
    m[documentId := Added(Active(m, documentId), userId)]
  }

  /** DELETE's removal of the signed-in user, dropping the document once nobody is left. */
  function Remove(m: Registry, documentId: string, userId: string): (m': Registry)
    ensures forall u :: u in Active(m', documentId) <==> u in Active(m, documentId) && u != userId
    ensures Active(m', documentId) == Erase(Active(m, documentId), userId)
    ensures forall d :: d != documentId ==> Active(m', d) == Active(m, d)
    ensures Inv(m) ==> Inv(m')
  {
    if documentId !in m then m
    else if Erase(m[documentId], userId) == [] then m - {documentId}
    else m[documentId := Erase(m[documentId], userId)]
  }

  /** Joining then leaving restores the registry, order included, for a user who was not already
      listed. */
  lemma {:induction false} AddThenRemove(m: Registry, documentId: string, userId: string)
    requires Inv(m) && userId !in Active(m, documentId)
    ensures Remove(Add(m, documentId, userId), documentId, userId) == m
  {
    var s := Active(m, documentId);
    var a := Add(m, documentId, userId);
    assert a == m[documentId := s + [userId]];
    EraseAppend(s, [userId], userId);
    EraseAbsent(s, userId);
    assert Erase([userId], userId) == [];
    assert Erase(a[documentId], userId) == s;
    if documentId in m {
      assert m[documentId := s] == m;
    } else {
      assert a - {documentId} == m;
    }
  }

  /** The entries GET lists for `ids`: one per id the user table knows, in the order of `ids`. */
  function Listed(ids: seq<string>, users: map<string, UserRecord>): (r: seq<Collaborator>)
    ensures forall i :: 0 <= i < |r| ==> r[i].id in users && r[i] == CollaboratorOf(r[i].id, users[r[i].id])
    ensures forall x :: x in Ids(r) <==> x in ids && x in users
    ensures Distinct(ids) ==> forall i, j :: 0 <= i < j < |r| ==> r[i].id != r[j].id
  {
    if ids == [] then []
    else
      var init := Listed(ids[..|ids| - 1], users);
      var x := ids[|ids| - 1];
      LastOf(ids);
      if x in users then
        var c := CollaboratorOf(x, users[x]);
        IdsSnoc(init, c);
        init + [c]
      else init
  }

  lemma LastOf(ids: seq<string>)
    requires ids != []
    ensures forall y :: y in ids <==> y in ids[..|ids| - 1] || y == ids[|ids| - 1]
    ensures Distinct(ids) ==> Distinct(ids[..|ids| - 1]) && ids[|ids| - 1] !in ids[..|ids| - 1]
  {
    assert ids == ids[..|ids| - 1] + [ids[|ids| - 1]];
  }

  lemma IdsSnoc(init: seq<Collaborator>, c: Collaborator)
    ensures Ids(init + [c]) == Ids(init) + {c.id}
  {
    assert (init + [c])[..|init|] == init;
  }

  /** The entries for two runs of ids one after the other are the first run's, then the second's. */
  lemma {:induction false} ListedAppend(a: seq<string>, b: seq<string>, users: map<string, UserRecord>)
    ensures Listed(a + b, users) == Listed(a, users) + Listed(b, users)
    decreases |b|
  {
    if b != [] {
      assert (a + b)[..|a + b| - 1] == a + b[..|b| - 1];
      ListedAppend(a, b[..|b| - 1], users);
    } else {
      assert a + b == a;
    }
  }

  /** The route module's in-memory state. */
  class Route {
    var activeCollaborators: Registry

    ghost predicate Valid()
      reads this
    {
      Inv(activeCollaborators)
    }

    constructor ()
      ensures Valid() && activeCollaborators == map[]
    {
      activeCollaborators := map[];
    }

    /** GET: every listed user that the user table knows, once each and in the order they joined,
        with display name and colour. */
    method Get(sessionUserId: Option<string>, documentId: Option<string>, users: map<string, UserRecord>)
      returns (r: Response)
      requires Valid()
      ensures !Present(sessionUserId) ==> r == Unauthorized
      ensures Present(sessionUserId) && !Present(documentId) ==> r == MissingDocumentId
      ensures Present(sessionUserId) && Present(documentId) ==>
        && r == Collaborators(Listed(Active(activeCollaborators, documentId.value), users))
        && (forall x :: x in Ids(r.list) <==> x in Active(activeCollaborators, documentId.value) && x in users)
        && (forall i, j :: 0 <= i < j < |r.list| ==> r.list[i].id != r.list[j].id)
        && (forall i :: 0 <= i < |r.list| ==> r.list[i].id in users && r.list[i] == CollaboratorOf(r.list[i].id, users[r.list[i].id]))
    {
      if !Present(sessionUserId) {
        return Unauthorized;
      }
      if !Present(documentId) {
        return MissingDocumentId;
      }
      var collaborators := Active(activeCollaborators, documentId.value);
      var details: seq<Collaborator> := [];
      for i := 0 to |collaborators|
        invariant details == Listed(collaborators[..i], users)
      {
        var userId := collaborators[i];
        assert collaborators[..i + 1][..i] == collaborators[..i];
        if userId in users {
          details := details + [CollaboratorOf(userId, users[userId])];
        }
      }
      assert collaborators[..|collaborators|] == collaborators;
      r := Collaborators(details);
    }

    /** POST: registers the user, then writes to the database; a database failure answers 500 with the
        registration already made. */
    method Post(sessionUserId: Option<string>, documentId: Option<string>, dbFails: bool) returns (r: Response)
      requires Valid()
      modifies this
      ensures Valid()
      ensures !Present(sessionUserId) ==> r == Unauthorized && activeCollaborators == old(activeCollaborators)
      ensures Present(sessionUserId) && !Present(documentId) ==>
        r == MissingDocumentId && activeCollaborators == old(activeCollaborators)
      ensures Present(sessionUserId) && Present(documentId) ==>
        && activeCollaborators == Add(old(activeCollaborators), documentId.value, sessionUserId.value)
        && r == (if dbFails then InternalError else Recorded)
    {
      if !Present(sessionUserId) {
        return Unauthorized;
      }
      if !Present(documentId) {
        return MissingDocumentId;
      }
      var d := documentId.value;
      if d !in activeCollaborators {
        activeCollaborators := activeCollaborators[d := []];
      }
      activeCollaborators := activeCollaborators[d := Added(activeCollaborators[d], sessionUserId.value)];
      r := if dbFails then InternalError else Recorded;
    }

    /** DELETE: removes the user from the document's set, dropping the set once empty. */
    method Delete(sessionUserId: Option<string>, documentId: Option<string>) returns (r: Response)
      requires Valid()
      modifies this
      ensures Valid()
      ensures !Present(sessionUserId) ==> r == Unauthorized && activeCollaborators == old(activeCollaborators)
      ensures Present(sessionUserId) && !Present(documentId) ==>
        r == MissingDocumentId && activeCollaborators == old(activeCollaborators)
      ensures Present(sessionUserId) && Present(documentId) ==>
        r == Removed && activeCollaborators == Remove(old(activeCollaborators), documentId.value, sessionUserId.value)
    {
      if !Present(sessionUserId) {
        return Unauthorized;
      }
      if !Present(documentId) {
        return MissingDocumentId;
      }
      var d := documentId.value;
      if d in activeCollaborators {
        var left := Erase(activeCollaborators[d], sessionUserId.value);
        activeCollaborators := activeCollaborators[d := left];
        if left == [] {
          activeCollaborators := activeCollaborators - {d};
        }
      }
      r := Removed;
    }
  }
}
