/** The HTTP client API. A request is described by a value; the server's
    answer is a parameter, and each endpoint maps it to the promise's outcome. */
module RealApi {
  import opened Options
  import opened ClientTypes
  import Decimal
  import Entities
  import Participants

  /** A parsed JSON value as JavaScript sees it (integral numbers only). */
  datatype Json =
    | Undefined
    | Null
    | Bool(b: bool)
    | Num(n: int)
    | Str(s: string)
    | Arr(items: seq<Json>)
    | Obj(fields: map<string, Json>)

  predicate Nullish(v: Json) {
    v == Undefined || v == Null
  }

  /** `Boolean(v)`. */
  predicate Truthy(v: Json) {
    match v
    case Undefined => false
    case Null => false
    case Bool(b) => b
    case Num(n) => n != 0
    case Str(s) => s != ""
    case _ => true
  }

  /** `a ?? b`. */
  function Coalesce(a: Json, b: Json): Json {
    if Nullish(a) then b else a
  }

  /** `v.key`: reading a property of null or undefined throws (None);
      a missing property, or one of a primitive, is undefined. */
  function Prop(v: Json, key: string): (r: Option<Json>)
    ensures r.None? <==> Nullish(v)
    ensures v.Obj? && key in v.fields ==> r == Some(v.fields[key])
  {
    match v
    case Undefined => None
    case Null => None
    case Obj(fields) => Some(if key in fields then fields[key] else Undefined)
    case _ => Some(Undefined)
  }

  function Join(parts: seq<string>): string {
    if |parts| == 0 then ""
    else if |parts| == 1 then parts[0]
    else parts[0] + "," + Join(parts[1..])
  }

  /** `String(v)`; an array joins its elements with commas, null and
      undefined elements giving the empty string. */
  function ToStr(v: Json): string
    decreases v
  {
    match v
    case Undefined => "undefined"
    case Null => "null"
    case Bool(b) => if b then "true" else "false"
    case Num(n) => Decimal.IntToString(n)
    case Str(s) => s
    case Arr(items) =>
      Join(seq(|items|, i requires 0 <= i < |items| => if Nullish(items[i]) then "" else ToStr(items[i])))
    case Obj(_) => "[object Object]"
  }

  /** `new Date(v)`; how a date string parses is the parameter `parseIso`. */
  function DateOf(v: Json, parseIso: string -> Moment): Moment {
    match v
    case Num(n) => At(n)
    case Str(s) => parseIso(s)
    case Bool(b) => At(if b then 1 else 0)
    case Null => At(0)
    case _ => InvalidDate
  }

  // ---- fetcher ----

  /** What `fetch` resolves to; `body` is None when it is not valid JSON. */
  datatype Response = Response(ok: bool, status: int, statusText: string, body: Option<Json>)

  /** A request: HTTP verb, path below the API base URL and JSON body. */
  datatype Request = Request(verb: string, path: string, body: Option<Json>)

  const InvalidJson: string := "SyntaxError: invalid JSON"
  const NullProperty: string := "TypeError: property of null"
  const NotAList: string := "TypeError: list.map is not a function"

  /** `fetcher`: a failed status rejects with the status text, 204 resolves
      to null, anything else to the parsed body. */
  function Fetcher(res: Response): (r: Outcome<Json>)
    ensures r.Thrown? <==> !res.ok || (res.status != 204 && res.body.None?)
    ensures !res.ok ==> r == Thrown("API call failed: " + res.statusText)
    ensures r.Resolved? ==> r.value == if res.status == 204 then Null else res.body.value
  {
    if !res.ok then Thrown("API call failed: " + res.statusText)
    else if res.status == 204 then Resolved(Null)
    else if res.body.None? then Thrown(InvalidJson)
    else Resolved(res.body.value)
  }

  // ---- registerUser ----

  /** `gender === "male" ? "MALE" : "FEMALE"`, undone by the reverse mapping. */
  function GenderCode(g: Gender): (code: string)
    ensures GenderFromCode(Str(code)) == g
  {
    match g
    case Male => "MALE"
    case Female => assert "FEMALE"[0] != "MALE"[0]; "FEMALE"
  }

  /** `p.gender === "MALE" ? "male" : "female"`: anything but "MALE" reads as female. */
  function GenderFromCode(v: Json): Gender {
    if v == Str("MALE") then Male else Female
  }

  /** The body of the registration: only the description (as `bio`) and the
      gender are sent, the name and the photo are not. */
  function RegisterPayload(u: NewUser): Json {
    Obj(map["bio" := Str(u.description), "gender" := Str(GenderCode(u.gender))])
  }

  function RegisterRequest(u: NewUser): Request {
    Request("POST", "/participants", Some(RegisterPayload(u)))
  }

  /** `registerUser`: the id comes from the server, every other field from
      the submitted data, and the table is unset. */
  function RegisterUser(u: NewUser, res: Response): (r: Outcome<User>)
    ensures (r.Resolved? ==>
      && r.value.name == u.name && r.value.gender == u.gender
      && r.value.photo == u.photo && r.value.description == u.description && r.value.tableId == None)
    ensures Fetcher(res).Thrown? ==> r == Thrown(Fetcher(res).message)
    ensures res.ok && res.status == 204 ==> r.Thrown?
    ensures Fetcher(res).Resolved? && !Nullish(Fetcher(res).value) ==>
      r == Resolved(User(ToStr(Prop(Fetcher(res).value, "id").value), u.name, u.gender, u.photo, u.description, None))
    ensures r.Resolved? <==> Fetcher(res).Resolved? && !Nullish(Fetcher(res).value)
  {
    match Fetcher(res)
    case Thrown(m) => Thrown(m)
    case Resolved(p) =>
      match Prop(p, "id")
      case None => Thrown(NullProperty)
      case Some(id) => Resolved(User(ToStr(id), u.name, u.gender, u.photo, u.description, None))
  }

  // ---- the backend's records as JSON ----

  function EntityGender(g: Gender): Entities.Gender {
    if g == Male then Entities.MALE else Entities.FEMALE
  }

  function OptStr(fields: map<string, Json>, key: string, v: Option<string>): map<string, Json> {
    if v.Some? then fields[key := Str(v.value)] else fields
  }

  function OptBool(fields: map<string, Json>, key: string, v: Option<bool>): map<string, Json> {
    if v.Some? then fields[key := Bool(v.value)] else fields
  }

  /** `JSON.stringify` of a stored participant: absent fields are omitted,
      `createdAt` is written by `iso`. */
  function Serialize(rec: Participants.ParticipantRecord, iso: int -> string): Json {
    var base := map[
      "id" := Num(rec.id),
      "gender" := Str(Entities.GenderName(rec.gender)),
      "status" := Str(Entities.StatusName(rec.status)),
      "createdAt" := Str(iso(rec.createdAt))];
    Obj(OptBool(OptBool(OptStr(OptStr(base, "name", rec.name), "bio", rec.bio), "ready", rec.ready), "paid", rec.paid))
  }

  /** The answer of the backend's `create` for this registration. */
  function RegisteredDto(u: NewUser): Participants.CreateParticipantDto {
    Participants.CreateParticipantDto(None, Some(u.description), EntityGender(u.gender), None, None, None)
  }

  /** A registration against the backend: the payload becomes a record with
      the description as bio and the same gender but no name, and the user
      the client keeps has the record's id written in decimal. */
  lemma RegisterRoundTrip(u: NewUser, id: nat, createdAt: int, iso: int -> string)
    ensures var rec := Participants.NewRecord(id, RegisteredDto(u), createdAt);
      && rec.bio == Some(u.description)
      && rec.name == None
      && Entities.GenderName(rec.gender) == GenderCode(u.gender)
      && RegisterUser(u, Response(true, 201, "Created", Some(Serialize(rec, iso))))
         == Resolved(User(Decimal.NatToString(id), u.name, u.gender, u.photo, u.description, None))
  {
    var rec := Participants.NewRecord(id, RegisteredDto(u), createdAt);
    var j := Serialize(rec, iso);
    assert Prop(j, "id") == Some(Num(id));
  }

  // ---- getParticipants / updateParticipant ----

  /** `p.name ?? "Участник"`. The client's `Participant.name` is text, so a
      name of another JSON type is shown as its `String(...)` text here. */
  function NameOf(v: Json): (name: string)
    ensures Nullish(v) ==> name == "Участник"
    ensures v.Str? ==> name == v.s
  {
    if Nullish(v) then "Участник" else if v.Str? then v.s else ToStr(v)
  }

  /** The mapping from a backend participant to the admin's `Participant`:
      registration time falls back to creation time, then to `now`. */
  function FromBackend(p: Json, now: int, parseIso: string -> Moment): (r: Outcome<Participant>)
    ensures r.Thrown? <==> Nullish(p)
    ensures (r.Resolved? ==>
      && r.value.paid == Truthy(Prop(p, "paid").value)
      && r.value.ready == Some(Truthy(Prop(p, "ready").value))
      && r.value.gender == GenderFromCode(Prop(p, "gender").value)
      && r.value.id == ToStr(Prop(p, "id").value))
  {
    if Nullish(p) then Thrown(NullProperty)
    else
      var at := Coalesce(Coalesce(Prop(p, "registeredAt").value, Prop(p, "createdAt").value), Num(now));
      Resolved(Participant(
        ToStr(Prop(p, "id").value),
        NameOf(Prop(p, "name").value),
        GenderFromCode(Prop(p, "gender").value),
        DateOf(at, parseIso),
        Truthy(Prop(p, "paid").value),
        Some(Truthy(Prop(p, "ready").value))))
  }

  /** `list.map(FromBackend)`: the first element that throws rejects the whole list. */
  function MapAll(items: seq<Json>, now: int, parseIso: string -> Moment): (r: Outcome<seq<Participant>>)
    ensures r.Resolved? <==> forall i :: 0 <= i < |items| ==> !Nullish(items[i])
    ensures (r.Resolved? ==>
      && |r.value| == |items|
      && forall i :: 0 <= i < |items| ==> Resolved(r.value[i]) == FromBackend(items[i], now, parseIso))
  {
    if |items| == 0 then Resolved([])
    else
      match FromBackend(items[0], now, parseIso)
      case Thrown(m) => Thrown(m)
      case Resolved(first) =>
        match MapAll(items[1..], now, parseIso)
        case Thrown(m) => Thrown(m)
        case Resolved(rest) => Resolved([first] + rest)
  }

  const ParticipantsRequest: Request := Request("GET", "/participants", None)

  /** `getParticipants`: a list body is mapped element by element; any other
      body (null from a 204 included) throws. */
  function GetParticipants(res: Response, now: int, parseIso: string -> Moment): (r: Outcome<seq<Participant>>)
    ensures Fetcher(res).Thrown? ==> r == Thrown(Fetcher(res).message)
    ensures Fetcher(res).Resolved? && !Fetcher(res).value.Arr? ==> r == Thrown(NotAList)
    ensures Fetcher(res).Resolved? && Fetcher(res).value.Arr? ==>
      r == MapAll(Fetcher(res).value.items, now, parseIso)
  {
    match Fetcher(res)
    case Thrown(m) => Thrown(m)
    case Resolved(body) =>
      if body.Arr? then MapAll(body.items, now, parseIso) else Thrown(NotAList)
  }

  /** What the admin sees of a stored participant. */
  function ClientView(rec: Participants.ParticipantRecord, parseIso: string -> Moment, iso: int -> string): Participant {
    Participant(
      Decimal.NatToString(rec.id),
      rec.name.GetOr("Участник"),
      if rec.gender == Entities.MALE then Male else Female,
      parseIso(iso(rec.createdAt)),
      rec.paid == Some(true),
      Some(rec.ready == Some(true)))
  }

  lemma FromBackendOfRecord(rec: Participants.ParticipantRecord, now: int, parseIso: string -> Moment, iso: int -> string)
    ensures FromBackend(Serialize(rec, iso), now, parseIso) == Resolved(ClientView(rec, parseIso, iso))
  {
    var j := Serialize(rec, iso);
    assert Prop(j, "id") == Some(Num(rec.id));
    assert Prop(j, "createdAt") == Some(Str(iso(rec.createdAt)));
    assert Prop(j, "registeredAt") == Some(Undefined);
    assert Prop(j, "gender") == Some(Str(Entities.GenderName(rec.gender)));
  }

  /** The body of a listing of the backend's store. */
  function StoreBody(store: seq<Participants.ParticipantRecord>, iso: int -> string): seq<Json> {
    seq(|store|, i requires 0 <= i < |store| => Serialize(store[i], iso))
  }

  /** Listing the backend's store: one participant per record, in store
      order, with the record's id in decimal, a placeholder for a missing
      name, the creation time as registration time and absent flags as false. */
  lemma GetParticipantsOfStore(store: seq<Participants.ParticipantRecord>, now: int,
                               parseIso: string -> Moment, iso: int -> string)
    ensures var r := GetParticipants(Response(true, 200, "OK", Some(Arr(StoreBody(store, iso)))), now, parseIso);
      && r.Resolved?
      && |r.value| == |store|
      && forall i :: 0 <= i < |store| ==> r.value[i] == ClientView(store[i], parseIso, iso)
  {
    var items := StoreBody(store, iso);
    forall i | 0 <= i < |items|
      ensures !Nullish(items[i])
      ensures FromBackend(items[i], now, parseIso) == Resolved(ClientView(store[i], parseIso, iso))
    {
      FromBackendOfRecord(store[i], now, parseIso, iso);
    }
    var r := MapAll(items, now, parseIso);
    assert r.Resolved?;
  }

  /** Distinct records are shown with distinct ids. */
  lemma ClientViewKeepsIdsApart(a: Participants.ParticipantRecord, b: Participants.ParticipantRecord,
                                parseIso: string -> Moment, iso: int -> string)
    ensures a.id != b.id <==> ClientView(a, parseIso, iso).id != ClientView(b, parseIso, iso).id
  {
    if Decimal.NatToString(a.id) == Decimal.NatToString(b.id) {
      Decimal.NatToStringInjective(a.id, b.id);
    }
  }

  /** Only boolean `ready` and `paid` reach the server. */
  function UpdatePayload(updates: ParticipantPatch): (j: Json)
    ensures j.Obj? && j.fields.Keys <= {"ready", "paid"}
    ensures "ready" in j.fields <==> updates.ready.Some?
    ensures "paid" in j.fields <==> updates.paid.Some?
    ensures updates.ready.Some? ==> j.fields["ready"] == Bool(updates.ready.value)
    ensures updates.paid.Some? ==> j.fields["paid"] == Bool(updates.paid.value)
  {
    Obj(OptBool(OptBool(map[], "ready", updates.ready), "paid", updates.paid))
  }

  function UpdateRequest(participantId: string, updates: ParticipantPatch): Request {
    Request("PATCH", "/participants/" + participantId, Some(UpdatePayload(updates)))
  }

  /** `updateParticipant`: a falsy answer (null from a 204 included) gives
      null, a truthy one is mapped. */
  function UpdateParticipant(res: Response, now: int, parseIso: string -> Moment): (r: Outcome<Option<Participant>>)
    ensures Fetcher(res).Thrown? ==> r == Thrown(Fetcher(res).message)
    ensures r == Resolved(None) <==> Fetcher(res).Resolved? && !Truthy(Fetcher(res).value)
    ensures Fetcher(res).Resolved? && Truthy(Fetcher(res).value) ==>
      r == Resolved(Some(FromBackend(Fetcher(res).value, now, parseIso).value))
  {
    match Fetcher(res)
    case Thrown(m) => Thrown(m)
    case Resolved(p) =>
      if !Truthy(p) then Resolved(None)
      else match FromBackend(p, now, parseIso)
        case Resolved(q) => Resolved(Some(q))
        case Thrown(m) => Thrown(m)
  }

  // ---- getUser / deleteParticipant ----

  function UserRequest(userId: string): Request {
    Request("GET", "/users/" + userId, None)
  }

  /** `getUser`: the answer is passed on unmapped (null for a 204). */
  function GetUser(res: Response): (r: Outcome<Json>)
    ensures res.ok && res.status == 204 ==> r == Resolved(Null)
    ensures r.Resolved? ==> res.ok
    ensures r.Thrown? <==> !res.ok || (res.status != 204 && res.body.None?)
    ensures !res.ok ==> r == Thrown("API call failed: " + res.statusText)
    ensures r.Resolved? ==> r.value == (if res.status == 204 then Null else res.body.value)
  {
    Fetcher(res)
  }

  function DeleteRequest(participantId: string): Request {
    Request("DELETE", "/participants/" + participantId, None)
  }

  /** `deleteParticipant`: a null answer (204 included) counts as success,
      otherwise the answer's truthiness. */
  function DeleteParticipant(res: Response): (r: Outcome<bool>)
    ensures r.Thrown? <==> Fetcher(res).Thrown?
    ensures res.ok && res.status == 204 ==> r == Resolved(true)
    ensures r.Resolved? && !r.value ==> res.status != 204 && Fetcher(res).value != Null && !Truthy(Fetcher(res).value)
    ensures Fetcher(res).Resolved? && Fetcher(res).value != Null ==> r == Resolved(Truthy(Fetcher(res).value))
  {
    match Fetcher(res)
    case Thrown(m) => Thrown(m)
    case Resolved(v) => Resolved(if v == Null then true else Truthy(v))
  }
}
