/** The waitlist service of the backend. The database table is an abstract
    sequence of rows; `create`, `findAll`, `updateContacted` and `remove` are
    mappings over it, and `getStats` counts rows in a loop. */
module Waitlist {
  import opened Options
  import Entities
  import Seqs
  import Sorting

  /** A row, as `WaitlistEntryDto` reports it; `createdAt` in milliseconds. */
  datatype WaitlistEntry = WaitlistEntry(
    id: string,
    telegramUsername: Option<string>,
    name: Option<string>,
    gender: Entities.Gender,
    preferredCity: Entities.City,
    contactInfo: Option<string>,
    contacted: bool,
    notes: Option<string>,
    createdAt: int)

  /** `Omit<WaitlistEntryDto, 'id' | 'createdAt' | 'contacted'>`. */
  datatype NewEntry = NewEntry(
    telegramUsername: Option<string>,
    name: Option<string>,
    gender: Entities.Gender,
    preferredCity: Entities.City,
    contactInfo: Option<string>,
    notes: Option<string>)

  /** The saved row of `create`: the database picks `id` and `createdAt`,
      `contacted` is always false, the other fields are the request's. */
  function Create(data: NewEntry, id: string, createdAt: int): (e: WaitlistEntry)
    ensures !e.contacted && e.id == id && e.createdAt == createdAt
    ensures e.telegramUsername == data.telegramUsername && e.name == data.name
    ensures e.gender == data.gender && e.preferredCity == data.preferredCity
    ensures e.contactInfo == data.contactInfo && e.notes == data.notes
  {
    WaitlistEntry(id, data.telegramUsername, data.name, data.gender, data.preferredCity,
                  data.contactInfo, false, data.notes, createdAt)
  }

  // ---- findAll ----

  /** `if (city) query.andWhere('entry.preferredCity = :city')`: an absent or
      empty city filters nothing. */
  function MatchesCity(city: Option<string>): WaitlistEntry -> bool {
    (e: WaitlistEntry) => city == None || city == Some("") || Entities.CityName(e.preferredCity) == city.value
  }

  /** `orderBy('entry.createdAt', 'DESC')` as an ascending key. */
  function NewestFirst(e: WaitlistEntry): int {
    -e.createdAt
  }

  /** One ordering the query may return (rows with equal `createdAt` in table order). */
  function FindAll(table: seq<WaitlistEntry>, city: Option<string>): seq<WaitlistEntry> {
    Sorting.Sort(Seqs.Filter(table, MatchesCity(city)), NewestFirst)
  }

  /** `findAll(city)` returns exactly the rows of that city (all rows when no
      city is given), newest first. */
  lemma FindAllSpec(table: seq<WaitlistEntry>, city: Option<string>)
    ensures var r := FindAll(table, city);
      && (forall e :: e in r <==> e in table && MatchesCity(city)(e))
      && (city.Some? && city.value != "" ==>
            forall i :: 0 <= i < |r| ==> Entities.CityName(r[i].preferredCity) == city.value)
      && (forall i, j :: 0 <= i < j < |r| ==> r[i].createdAt >= r[j].createdAt)
      && multiset(r) == multiset(Seqs.Filter(table, MatchesCity(city)))
  {
    var f := Seqs.Filter(table, MatchesCity(city));
    var r := FindAll(table, city);
    Sorting.SortSorted(f, NewestFirst);
    forall e
      ensures e in r <==> e in table && MatchesCity(city)(e)
    {
      assert e in r <==> e in multiset(r);
      assert e in f <==> e in multiset(f);
      if e in table && MatchesCity(city)(e) {
        var i :| 0 <= i < |table| && table[i] == e;
      }
    }
    forall i | 0 <= i < |r|
      ensures MatchesCity(city)(r[i])
    {
      assert r[i] in multiset(f);
    }
  }

  // ---- updateContacted ----

  /** `repository.update(id, { contacted, notes })`: an undefined `notes` is not written. */
  function SetContacted(table: seq<WaitlistEntry>, id: string, contacted: bool, notes: Option<string>): (r: seq<WaitlistEntry>)
    ensures |r| == |table|
    ensures forall i :: 0 <= i < |r| ==>
      if table[i].id == id
      then r[i] == table[i].(contacted := contacted, notes := if notes.Some? then notes else table[i].notes)
      else r[i] == table[i]
  {
    seq(|table|, i requires 0 <= i < |table| =>
      if table[i].id == id
      then table[i].(contacted := contacted, notes := if notes.Some? then notes else table[i].notes)
      else table[i])
  }

  function HasId(id: string): WaitlistEntry -> bool {
    (e: WaitlistEntry) => e.id == id
  }

  /** `repository.findOne({ where: { id } })`. */
  function FindOne(table: seq<WaitlistEntry>, id: string): Option<WaitlistEntry> {
    var i := Seqs.FindIndex(table, HasId(id));
    if i == -1 then None else Some(table[i])
  }

  /** `updateContacted`: the new table and the answer, null when no row has the id. */
  function UpdateContacted(table: seq<WaitlistEntry>, id: string, contacted: bool, notes: Option<string>)
    : (result: (seq<WaitlistEntry>, Option<WaitlistEntry>))
    ensures result.0 == SetContacted(table, id, contacted, notes)
    ensures result.1 == FindOne(result.0, id)
  {
    var updated := SetContacted(table, id, contacted, notes);
    (updated, FindOne(updated, id))
  }

  /** The answer is null iff no row has the id; otherwise it is the first row
      with the id, with the new flag, and with the new notes when given and
      its stored notes when not. */
  lemma UpdateContactedSpec(table: seq<WaitlistEntry>, id: string, contacted: bool, notes: Option<string>)
    ensures var r := UpdateContacted(table, id, contacted, notes).1;
      var i := Seqs.FindIndex(table, HasId(id));
      && (r.None? <==> forall e :: e in table ==> e.id != id)
      && (r.None? <==> i == -1)
      && (i != -1 ==>
            r == Some(table[i].(contacted := contacted, notes := if notes.Some? then notes else table[i].notes)))
      && (r.Some? ==> r.value.id == id && r.value.contacted == contacted)
  {
    var u := SetContacted(table, id, contacted, notes);
    var k := Seqs.FindIndex(u, HasId(id));
    var i := Seqs.FindIndex(table, HasId(id));
    assert forall j :: 0 <= j < |table| ==> HasId(id)(u[j]) == HasId(id)(table[j]);
    if k == -1 {
      forall e | e in table
        ensures e.id != id
      {
        var j :| 0 <= j < |table| && table[j] == e;
        assert !HasId(id)(u[j]);
      }
      assert i == -1;
    } else {
      assert table[k].id == id;
      assert i == k;
    }
  }

  // ---- remove ----

  /** `(result.affected ?? 0) > 0`; some drivers leave `affected` undefined. */
  function RemoveResult(affected: Option<int>): (removed: bool)
    ensures removed <==> affected.Some? && affected.value > 0
  {
    affected.GetOr(0) > 0
  }

  /** `repository.delete(id)`: the remaining rows and how many went. */
  function Delete(table: seq<WaitlistEntry>, id: string): (result: (seq<WaitlistEntry>, nat))
    ensures result.0 == Seqs.Filter(table, (e: WaitlistEntry) => e.id != id)
    ensures result.1 == |table| - |result.0|
  {
    var remaining := Seqs.Filter(table, (e: WaitlistEntry) => e.id != id);
    (remaining, |table| - |remaining|)
  }

  /** With a driver that reports the count, `remove` is true iff a row had the
      id; without one it is always false. */
  lemma RemoveReportsDeletion(table: seq<WaitlistEntry>, id: string)
    ensures RemoveResult(Some(Delete(table, id).1)) <==> exists e :: e in table && e.id == id
    ensures !RemoveResult(None)
  {
    Seqs.FilterShrinks(table, (e: WaitlistEntry) => e.id != id);
  }

  // ---- getStats ----

  datatype Stats = Stats(total: nat, byCity: map<Entities.City, nat>, byGender: map<Entities.Gender, nat>)

  function InCity(c: Entities.City): WaitlistEntry -> bool {
    (e: WaitlistEntry) => e.preferredCity == c
  }

  function OfGender(g: Entities.Gender): WaitlistEntry -> bool {
    (e: WaitlistEntry) => e.gender == g
  }

  function CityCount(s: seq<WaitlistEntry>, c: Entities.City): nat {
    |Seqs.Filter(s, InCity(c))|
  }

  function GenderCount(s: seq<WaitlistEntry>, g: Entities.Gender): nat {
    |Seqs.Filter(s, OfGender(g))|
  }

  /** `record[key] || 0`. */
  function Lookup<K>(m: map<K, nat>, k: K): nat {
    if k in m then m[k] else 0
  }

  /** `m` holds, for every city that occurs in `s`, its count, and no other key. */
  predicate CityTally(m: map<Entities.City, nat>, s: seq<WaitlistEntry>) {
    forall c :: (c in m <==> CityCount(s, c) > 0) && (c in m ==> m[c] == CityCount(s, c))
  }

  /** `m` holds, for every gender that occurs in `s`, its count, and no other key. */
  predicate GenderTally(m: map<Entities.Gender, nat>, s: seq<WaitlistEntry>) {
    forall g :: (g in m <==> GenderCount(s, g) > 0) && (g in m ==> m[g] == GenderCount(s, g))
  }

  /** `byCity[city] = (byCity[city] || 0) + 1` keeps the tally for one more row. */
  lemma CityTallyStep(m: map<Entities.City, nat>, s: seq<WaitlistEntry>, e: WaitlistEntry)
    requires CityTally(m, s)
    ensures CityTally(m[e.preferredCity := Lookup(m, e.preferredCity) + 1], s + [e])
  {
    forall c
      ensures CityCount(s + [e], c) == CityCount(s, c) + (if e.preferredCity == c then 1 else 0)
    {
      Seqs.FilterSnoc(s, e, InCity(c));
    }
  }

  /** `byGender[gender] = (byGender[gender] || 0) + 1` keeps the tally for one more row. */
  lemma GenderTallyStep(m: map<Entities.Gender, nat>, s: seq<WaitlistEntry>, e: WaitlistEntry)
    requires GenderTally(m, s)
    ensures GenderTally(m[e.gender := Lookup(m, e.gender) + 1], s + [e])
  {
    forall g
      ensures GenderCount(s + [e], g) == GenderCount(s, g) + (if e.gender == g then 1 else 0)
    {
      Seqs.FilterSnoc(s, e, OfGender(g));
    }
  }

  /** With two cities and two genders, each tally sums to the number of rows. */
  lemma TalliesSum(s: seq<WaitlistEntry>, byCity: map<Entities.City, nat>, byGender: map<Entities.Gender, nat>)
    requires CityTally(byCity, s) && GenderTally(byGender, s)
    ensures Lookup(byCity, Entities.MOSCOW) + Lookup(byCity, Entities.SAINT_PETERSBURG) == |s|
    ensures Lookup(byGender, Entities.MALE) + Lookup(byGender, Entities.FEMALE) == |s|
  {
    Seqs.FilterPartition(s, InCity(Entities.MOSCOW), InCity(Entities.SAINT_PETERSBURG));
    Seqs.FilterPartition(s, OfGender(Entities.MALE), OfGender(Entities.FEMALE));
    assert Lookup(byCity, Entities.MOSCOW) == CityCount(s, Entities.MOSCOW);
    assert Lookup(byCity, Entities.SAINT_PETERSBURG) == CityCount(s, Entities.SAINT_PETERSBURG);
    assert Lookup(byGender, Entities.MALE) == GenderCount(s, Entities.MALE);
    assert Lookup(byGender, Entities.FEMALE) == GenderCount(s, Entities.FEMALE);
  }

  /** Counts the rows per city and per gender; only values that occur become keys. */
  method GetStats(entries: seq<WaitlistEntry>) returns (stats: Stats)
    ensures stats.total == |entries|
    ensures forall c :: c in stats.byCity <==> CityCount(entries, c) > 0
    ensures forall c :: c in stats.byCity ==> stats.byCity[c] == CityCount(entries, c)
    ensures forall g :: g in stats.byGender <==> GenderCount(entries, g) > 0
    ensures forall g :: g in stats.byGender ==> stats.byGender[g] == GenderCount(entries, g)
    ensures Lookup(stats.byCity, Entities.MOSCOW) + Lookup(stats.byCity, Entities.SAINT_PETERSBURG) == stats.total
    ensures Lookup(stats.byGender, Entities.MALE) + Lookup(stats.byGender, Entities.FEMALE) == stats.total
  {
    var byCity: map<Entities.City, nat> := map[];
    var byGender: map<Entities.Gender, nat> := map[];
    var i := 0;
    while i < |entries|
      invariant 0 <= i <= |entries|
      invariant CityTally(byCity, entries[..i])
      invariant GenderTally(byGender, entries[..i])
    {
      var e := entries[i];
      assert entries[..i + 1] == entries[..i] + [e];
      CityTallyStep(byCity, entries[..i], e);
      GenderTallyStep(byGender, entries[..i], e);
      byCity := byCity[e.preferredCity := Lookup(byCity, e.preferredCity) + 1];
      byGender := byGender[e.gender := Lookup(byGender, e.gender) + 1];
      i := i + 1;
    }
    assert entries[..i] == entries;
    stats := Stats(|entries|, byCity, byGender);
    TalliesSum(entries, byCity, byGender);
  }
}
