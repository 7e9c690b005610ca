/** The in-memory participant store of the backend (`ParticipantsService`).
    Only `create` and `findAll` do anything; the other handlers are stubs
    that answer with a message and leave the store alone. */
module Participants {
  import opened Options
  import Entities

  /** `CreateParticipantDto`: the declared fields of the request body, and
      an `id` the body may carry besides. No validation pipe is installed, so
      the raw body reaches `create` with whatever fields it has. */
  datatype CreateParticipantDto = CreateParticipantDto(
    name: Option<string>,
    bio: Option<string>,
    gender: Entities.Gender,
    ready: Option<bool>,
    paid: Option<bool>,
    id: Option<nat>)

  /** A stored participant; `createdAt` is the moment of creation in milliseconds. */
  datatype ParticipantRecord = ParticipantRecord(
    id: nat,
    name: Option<string>,
    bio: Option<string>,
    gender: Entities.Gender,
    ready: Option<bool>,
    paid: Option<bool>,
    status: Entities.ParticipantStatus,
    createdAt: int)

  /** `{ id, ...dto, status: 'REGISTERED', createdAt }`: the body is spread
      after the generated id, so an id in the body wins; status and creation
      time are written after the body, so they always come from the service. */
  function NewRecord(id: nat, dto: CreateParticipantDto, createdAt: int): (r: ParticipantRecord)
    ensures dto.id.None? ==> r.id == id
    ensures dto.id.Some? ==> r.id == dto.id.value
    ensures r.status == Entities.REGISTERED && r.createdAt == createdAt
    ensures r.name == dto.name && r.bio == dto.bio && r.gender == dto.gender
    ensures r.ready == dto.ready && r.paid == dto.paid
  {
    ParticipantRecord(dto.id.GetOr(id), dto.name, dto.bio, dto.gender, dto.ready, dto.paid, Entities.REGISTERED, createdAt)
  }

  class ParticipantsService {
    var participants: seq<ParticipantRecord>

    /** Nothing changes a status once written. */
    ghost predicate Valid()
      reads this
    {
      forall i :: 0 <= i < |participants| ==> participants[i].status == Entities.REGISTERED
    }

    /** The ids are 1..n in insertion order. Nothing removes a record, so this
        holds for as long as no body has carried an id of its own. */
    ghost predicate IdsAreIndices()
      reads this
    {
      forall i :: 0 <= i < |participants| ==> participants[i].id == i + 1
    }

    constructor()
      ensures Valid() && IdsAreIndices() && participants == []
    {
      participants := [];
    }

    /** Appends exactly one record, generated with id = old length + 1. */
    method Create(dto: CreateParticipantDto, createdAt: int) returns (r: ParticipantRecord)
      requires Valid()
      modifies this
      ensures Valid()
      ensures old(IdsAreIndices()) && dto.id.None? ==> IdsAreIndices()
      ensures r == NewRecord(|old(participants)| + 1, dto, createdAt)
      ensures participants == old(participants) + [r]
    {
      r := NewRecord(|participants| + 1, dto, createdAt);
      participants := participants + [r];
    }

    /** All records in insertion order (the `eventId` query is ignored). */
    method FindAll() returns (r: seq<ParticipantRecord>)
      ensures r == participants
    {
      r := participants;
    }

    /** Stub: a message, no lookup. */
    method FindOne(id: string) returns (message: string)
      ensures message == "This action returns a #" + id + " participant"
    {
      message := "This action returns a #" + id + " participant";
    }

    /** Stub: a message, the store is unchanged (the patch body is ignored). */
    method Update(id: string) returns (message: string)
      ensures message == "This action updates a #" + id + " participant"
    {
      message := "This action updates a #" + id + " participant";
    }

    /** Stub: a message, the store is unchanged. */
    method Remove(id: string) returns (message: string)
      ensures message == "This action removes a #" + id + " participant"
    {
      message := "This action removes a #" + id + " participant";
    }
  }

  /** A body that carries an id takes a live one: after an id-free
      registration, a body with `id: 1` gives a second record with id 1. */
  method BodyIdDuplicates() returns (svc: ParticipantsService)
    ensures |svc.participants| == 2
    ensures svc.participants[0].id == 1 && svc.participants[1].id == 1
  {
    svc := new ParticipantsService();
    var first := svc.Create(CreateParticipantDto(None, None, Entities.MALE, None, None, None), 0);
    var second := svc.Create(CreateParticipantDto(None, None, Entities.FEMALE, None, None, Some(1)), 1);
  }
}
