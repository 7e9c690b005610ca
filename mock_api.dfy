/** The mock client API: two module-level arrays, seeded at load time, that
    the endpoint functions read and replace. */
module MockApi {
  import opened Options
  import opened ClientTypes
  import Seqs

  function SeedUsers(): seq<User> {
    [ User("1", "Алексей Петров", Male, None, "Team Lead", Some(1)),
      User("2", "Мария Иванова", Female, None, "Frontend Developer", Some(1)),
      User("3", "Дмитрий Сидоров", Male, None, "Backend Developer", Some(2)) ]
  }

  /** `registeredAt: new Date()`: the load time `now` for every seed. */
  function SeedParticipants(now: int): seq<Participant> {
    [ Participant("1", "Алексей Петров", Male, At(now), true, Some(true)),
      Participant("2", "Мария Иванова", Female, At(now), true, Some(true)),
      Participant("3", "Дмитрий Сидоров", Male, At(now), false, Some(false)),
      Participant("4", "Анна Козлова", Female, At(now), true, Some(false)),
      Participant("5", "Сергей Морозов", Male, At(now), true, Some(true)) ]
  }

  /** `{ ...userData, id }`: the submitted fields plus the new id. */
  function WithId(u: NewUser, id: string): (r: User)
    ensures r.id == id && r.name == u.name && r.gender == u.gender
    ensures r.photo == u.photo && r.description == u.description && r.tableId == u.tableId
  {
    User(id, u.name, u.gender, u.photo, u.description, u.tableId)
  }

  function UserHasId(id: string): User -> bool {
    (u: User) => u.id == id
  }

  /** `mockUsers.find((u) => u.id === userId) || null`. */
  function FindUser(users: seq<User>, id: string): (r: Option<User>)
    ensures r.None? <==> forall u :: u in users ==> u.id != id
    ensures r.Some? ==> exists i ::
      && 0 <= i < |users| && users[i] == r.value && users[i].id == id
      && forall j :: 0 <= j < i ==> users[j].id != id
  {
    var i := Seqs.FindIndex(users, UserHasId(id));
    if i == -1 then None else Some(users[i])
  }

  /** A user registered under an id nobody else has is found by that id, and
      every other lookup answers as before. */
  lemma RegisteredUserIsFound(users: seq<User>, u: NewUser, id: string, other: string)
    requires forall v :: v in users ==> v.id != id
    requires other != id
    ensures FindUser(users + [WithId(u, id)], id) == Some(WithId(u, id))
    ensures FindUser(users + [WithId(u, id)], other) == FindUser(users, other)
  {
    var ext := users + [WithId(u, id)];
    var r := FindUser(ext, id);
    assert ext[|users|].id == id;
    assert forall j :: 0 <= j < |users| ==> users[j] in users;
    var a := FindUser(ext, other);
    var b := FindUser(users, other);
    if a.Some? {
      var k :| 0 <= k < |ext| && ext[k] == a.value && ext[k].id == other
        && forall j :: 0 <= j < k ==> ext[j].id != other;
      assert k < |users|;
      assert users[k] in users;
      var m :| 0 <= m < |users| && users[m] == b.value && users[m].id == other
        && forall j :: 0 <= j < m ==> users[j].id != other;
      assert ext[m] == users[m];
      assert !(m < k) && !(k < m);
    } else {
      forall v | v in users
        ensures v.id != other
      {
        assert v in ext;
      }
    }
  }

  /** The list after `updateParticipant`: every entry with the id is merged. */
  function MergeMatching(ps: seq<Participant>, id: string, u: ParticipantPatch): (r: seq<Participant>)
    ensures |r| == |ps|
    ensures forall i :: 0 <= i < |ps| ==>
      r[i] == if ps[i].id == id then MergeParticipant(ps[i], u) else ps[i]
  {
    seq(|ps|, i requires 0 <= i < |ps| => if ps[i].id == id then MergeParticipant(ps[i], u) else ps[i])
  }

  /** The answer of `updateParticipant`: the merge of the last entry with the
      id (the map callback overwrites it each time), null when there is none. */
  function LastMerged(ps: seq<Participant>, id: string, u: ParticipantPatch): Option<Participant> {
    if |ps| == 0 then None
    else if ps[|ps| - 1].id == id then Some(MergeParticipant(ps[|ps| - 1], u))
    else LastMerged(ps[..|ps| - 1], id, u)
  }

  /** The answer is null iff no entry has the id; otherwise it is the merge of
      the last such entry, and it is what the list now holds at that place. */
  lemma {:induction false} LastMergedSpec(ps: seq<Participant>, id: string, u: ParticipantPatch)
    ensures LastMerged(ps, id, u).None? <==> forall p :: p in ps ==> p.id != id
    ensures LastMerged(ps, id, u).Some? ==> exists j ::
      && 0 <= j < |ps| && ps[j].id == id
      && LastMerged(ps, id, u) == Some(MergeParticipant(ps[j], u))
      && MergeMatching(ps, id, u)[j] == LastMerged(ps, id, u).value
      && forall k :: j < k < |ps| ==> ps[k].id != id
  {
    if |ps| > 0 && ps[|ps| - 1].id != id {
      var init := ps[..|ps| - 1];
      LastMergedSpec(init, id, u);
      assert ps == init + [ps[|ps| - 1]];
      if LastMerged(init, id, u).Some? {
        var j :| 0 <= j < |init| && init[j].id == id
          && LastMerged(init, id, u) == Some(MergeParticipant(init[j], u))
          && MergeMatching(init, id, u)[j] == LastMerged(init, id, u).value
          && forall k :: j < k < |init| ==> init[k].id != id;
        assert ps[j] == init[j];
        assert MergeMatching(ps, id, u)[j] == MergeParticipant(ps[j], u);
      }
    }
  }

  /** Merging is idempotent: `{ ...{ ...p, ...u }, ...u }` is `{ ...p, ...u }`. */
  lemma MergeIdempotent(p: Participant, u: ParticipantPatch)
    ensures MergeParticipant(MergeParticipant(p, u), u) == MergeParticipant(p, u)
  {
  }

  /** Repeating an update that leaves the id alone changes nothing more. */
  lemma MergeMatchingIdempotent(ps: seq<Participant>, id: string, u: ParticipantPatch)
    requires u.id == None || u.id == Some(id)
    ensures MergeMatching(MergeMatching(ps, id, u), id, u) == MergeMatching(ps, id, u)
  {
    var once := MergeMatching(ps, id, u);
    var twice := MergeMatching(once, id, u);
    forall i | 0 <= i < |ps|
      ensures twice[i] == once[i]
    {
      if ps[i].id == id {
        MergeIdempotent(ps[i], u);
      }
    }
  }

  class MockDatabase {
    var mockUsers: seq<User>
    var mockParticipants: seq<Participant>

    constructor(now: int)
      ensures mockUsers == SeedUsers() && mockParticipants == SeedParticipants(now)
    {
      mockUsers := SeedUsers();
      mockParticipants := SeedParticipants(now);
    }

    /** `registerUser`: the random id is the parameter `freshId`. */
    method RegisterUser(userData: NewUser, freshId: string) returns (r: User)
      modifies this`mockUsers
      ensures r == WithId(userData, freshId)
      ensures mockUsers == old(mockUsers) + [r]
    {
      r := WithId(userData, freshId);
      mockUsers := mockUsers + [r];
    }

    function GetUser(userId: string): Option<User>
      reads this
    {
      FindUser(mockUsers, userId)
    }

    /** A copy of the list: later changes to the store do not reach it. */
    method GetParticipants() returns (r: seq<Participant>)
      ensures r == mockParticipants
    {
      r := mockParticipants;
    }

    /** `updateParticipant`: one pass over the list, merging every entry with
        the id and remembering the last merge. */
    method UpdateParticipant(participantId: string, updates: ParticipantPatch) returns (r: Option<Participant>)
      modifies this`mockParticipants
      ensures mockParticipants == MergeMatching(old(mockParticipants), participantId, updates)
      ensures r == LastMerged(old(mockParticipants), participantId, updates)
    {
      var ps := mockParticipants;
      var out: seq<Participant> := [];
      var updated: Option<Participant> := None;
      var i := 0;
      while i < |ps|
        invariant 0 <= i <= |ps|
        invariant |out| == i
        invariant forall j :: 0 <= j < i ==>
          out[j] == if ps[j].id == participantId then MergeParticipant(ps[j], updates) else ps[j]
        invariant updated == LastMerged(ps[..i], participantId, updates)
      {
        assert ps[..i + 1][..i] == ps[..i];
        var p := ps[i];
        if p.id == participantId {
          updated := Some(MergeParticipant(p, updates));
          out := out + [updated.value];
        } else {
          out := out + [p];
        }
        i := i + 1;
      }
      assert ps[..i] == ps;
      mockParticipants := out;
      r := updated;
    }

    /** `deleteParticipant`: drops every entry with the id; success iff the list got shorter. */
    method DeleteParticipant(participantId: string) returns (success: bool)
      modifies this`mockParticipants
      ensures mockParticipants == Seqs.Filter(old(mockParticipants), HasOtherId(participantId))
      ensures success <==> exists p :: p in old(mockParticipants) && p.id == participantId
    {
      var initialLength := |mockParticipants|;
      Seqs.FilterShrinks(mockParticipants, HasOtherId(participantId));
      mockParticipants := Seqs.Filter(mockParticipants, HasOtherId(participantId));
      success := |mockParticipants| < initialLength;
    }
  }
}
