/** The admin's participant panel: the list loaded from the API, its
    filters, the head counts and table count, and the two row actions. */
module AdminPanel {
  import opened Options
  import opened ClientTypes
  import Seqs

  datatype GenderFilter = AllGenders | OnlyGender(g: Gender)
  datatype PaymentFilter = AnyPayment | PaidOnly | UnpaidOnly
  datatype Tab = Registered | Present

  // ---- filtering ----

  /** `toLowerCase` on the basic Latin capitals A–Z and the Russian alphabet
      (А–Я and Ё); every other character is kept. */
  function LowerChar(c: char): char {
    if 'A' <= c <= 'Z' || 'А' <= c <= 'Я' then ((c as int) + 32) as char
    else if c == 'Ё' then 'ё'
    else c
  }

  function ToLower(s: string): (r: string)
    ensures |r| == |s| && forall i :: 0 <= i < |s| ==> r[i] == LowerChar(s[i])
  {
    seq(|s|, i requires 0 <= i < |s| => LowerChar(s[i]))
  }

  /** `hay.includes(needle)`. */
  predicate Contains(hay: string, needle: string)
    decreases |hay|
  {
    needle <= hay || (|hay| > 0 && Contains(hay[1..], needle))
  }

  lemma ContainsEmpty(hay: string)
    ensures Contains(hay, "")
  {
  }

  /** The three tests of one row. */
  function Matches(nameFilter: string, genderFilter: GenderFilter, paymentFilter: PaymentFilter): Participant -> bool {
    (p: Participant) =>
      && Contains(ToLower(p.name), ToLower(nameFilter))
      && (genderFilter == AllGenders || p.gender == genderFilter.g)
      && (paymentFilter == AnyPayment || (paymentFilter == PaidOnly && p.paid) || (paymentFilter == UnpaidOnly && !p.paid))
  }

  /** `getFilteredParticipants`. */
  function Filtered(ps: seq<Participant>, nameFilter: string, genderFilter: GenderFilter,
                    paymentFilter: PaymentFilter): seq<Participant> {
    Seqs.Filter(ps, Matches(nameFilter, genderFilter, paymentFilter))
  }

  /** The filtered list keeps the list's order and holds exactly the rows
      that pass the name, gender and payment tests. */
  lemma FilteredSpec(ps: seq<Participant>, nameFilter: string, genderFilter: GenderFilter, paymentFilter: PaymentFilter)
    ensures var r := Filtered(ps, nameFilter, genderFilter, paymentFilter);
      && Seqs.SubsequenceOf(r, ps)
      && forall p :: p in r <==> p in ps && Matches(nameFilter, genderFilter, paymentFilter)(p)
  {
    var keep := Matches(nameFilter, genderFilter, paymentFilter);
    var r := Filtered(ps, nameFilter, genderFilter, paymentFilter);
    Seqs.FilterIsSubsequence(ps, keep);
    forall p | p in r
      ensures keep(p)
    {
      var i :| 0 <= i < |r| && r[i] == p;
    }
    forall p | p in ps && keep(p)
      ensures p in r
    {
      var i :| 0 <= i < |ps| && ps[i] == p;
    }
  }

  /** The initial filters (empty name, all genders, any payment) show the whole list. */
  lemma DefaultFiltersShowAll(ps: seq<Participant>)
    ensures Filtered(ps, "", AllGenders, AnyPayment) == ps
  {
    forall i | 0 <= i < |ps|
      ensures Matches("", AllGenders, AnyPayment)(ps[i])
    {
      ContainsEmpty(ToLower(ps[i].name));
    }
    Seqs.FilterUnchanged(ps, Matches("", AllGenders, AnyPayment));
  }

  // ---- counts ----

  function IsPresent(): Participant -> bool {
    (p: Participant) => IsReady(p)
  }

  /** `registeredParticipants.filter((p) => p.ready)`. */
  function PresentOf(ps: seq<Participant>): seq<Participant> {
    Seqs.Filter(ps, IsPresent())
  }

  function CurrentParticipants(tab: Tab, ps: seq<Participant>): seq<Participant> {
    if tab == Registered then ps else PresentOf(ps)
  }

  function OfGender(g: Gender): Participant -> bool {
    (p: Participant) => p.gender == g
  }

  function MaleCount(ps: seq<Participant>): nat {
    |Seqs.Filter(PresentOf(ps), OfGender(Male))|
  }

  function FemaleCount(ps: seq<Participant>): nat {
    |Seqs.Filter(PresentOf(ps), OfGender(Female))|
  }

  /** `Math.floor(Math.min(maleCount, femaleCount))`. */
  function TotalTables(ps: seq<Participant>): nat {
    if MaleCount(ps) <= FemaleCount(ps) then MaleCount(ps) else FemaleCount(ps)
  }

  /** `presentParticipants.length - totalTables * 2`, shown only when positive. */
  function Unpaired(ps: seq<Participant>): int {
    |PresentOf(ps)| - TotalTables(ps) * 2
  }

  /** Every present participant is counted once as a man or a woman; a table
      seats one of each, so tables never need more people than are present,
      and the people left without a pair are the surplus of one gender. */
  lemma CountsSpec(ps: seq<Participant>)
    ensures MaleCount(ps) + FemaleCount(ps) == |PresentOf(ps)|
    ensures TotalTables(ps) <= MaleCount(ps) && TotalTables(ps) <= FemaleCount(ps)
    ensures 2 * TotalTables(ps) <= |PresentOf(ps)|
    ensures Unpaired(ps) == if MaleCount(ps) >= FemaleCount(ps) then MaleCount(ps) - FemaleCount(ps)
                            else FemaleCount(ps) - MaleCount(ps)
    ensures Unpaired(ps) > 0 <==> MaleCount(ps) != FemaleCount(ps)
  {
    Seqs.FilterPartition(PresentOf(ps), OfGender(Male), OfGender(Female));
  }

  // ---- row actions ----

  /** `prev.map((p) => (p.id === id ? updated : p))`. */
  function ReplaceAll(ps: seq<Participant>, id: string, updated: Participant): (r: seq<Participant>)
    ensures |r| == |ps|
    ensures forall i :: 0 <= i < |ps| ==> r[i] == if ps[i].id == id then updated else ps[i]
  {
    seq(|ps|, i requires 0 <= i < |ps| => if ps[i].id == id then updated else ps[i])
  }

  /** `{ ready: !participant.ready }`: a missing flag counts as not ready. */
  function TogglePatch(p: Participant): ParticipantPatch {
    ParticipantPatch(None, None, None, None, None, Some(!IsReady(p)))
  }

  /** A server that merges the patch hands back the row with its presence flipped. */
  lemma TogglePatchFlips(p: Participant)
    ensures IsReady(MergeParticipant(p, TogglePatch(p))) == !IsReady(p)
    ensures MergeParticipant(p, TogglePatch(p)).id == p.id
  {
  }

  predicate UniqueIds(ps: seq<Participant>) {
    forall i, j :: 0 <= i < |ps| && 0 <= j < |ps| && ps[i].id == ps[j].id ==> i == j
  }

  /** With distinct ids, flipping one row's presence moves the present count
      by one in the matching direction. */
  lemma ToggleMovesPresentCount(ps: seq<Participant>, i: int, updated: Participant)
    requires UniqueIds(ps) && 0 <= i < |ps|
    requires IsReady(updated) == !IsReady(ps[i])
    ensures |PresentOf(ReplaceAll(ps, ps[i].id, updated))| ==
      if IsReady(ps[i]) then |PresentOf(ps)| - 1 else |PresentOf(ps)| + 1
  {
    assert ReplaceAll(ps, ps[i].id, updated) == ps[i := updated];
    Seqs.FilterUpdateLength(ps, i, updated, IsPresent());
  }

  class Panel {
    var registeredParticipants: seq<Participant>
    var isLoading: bool
    var nameFilter: string
    var genderFilter: GenderFilter
    var paymentFilter: PaymentFilter
    var activeTab: Tab

    constructor()
      ensures registeredParticipants == [] && isLoading
      ensures nameFilter == "" && genderFilter == AllGenders && paymentFilter == AnyPayment && activeTab == Registered
    {
      registeredParticipants := [];
      isLoading := true;
      nameFilter := "";
      genderFilter := AllGenders;
      paymentFilter := AnyPayment;
      activeTab := Registered;
    }

    /** The list on screen: the current tab's rows through the filters. */
    function Shown(): seq<Participant>
      reads this
    {
      Filtered(CurrentParticipants(activeTab, registeredParticipants), nameFilter, genderFilter, paymentFilter)
    }

    /** The load effect's answer arrives. */
    method Loaded(participants: seq<Participant>)
      modifies this`registeredParticipants, this`isLoading
      ensures registeredParticipants == participants && !isLoading
    {
      registeredParticipants := participants;
      isLoading := false;
    }

    /** `handleDeleteParticipant`, once the API has answered `success`. */
    method HandleDeleteParticipant(id: string, success: bool)
      modifies this`registeredParticipants
      ensures success ==> registeredParticipants == Seqs.Filter(old(registeredParticipants), HasOtherId(id))
      ensures !success ==> registeredParticipants == old(registeredParticipants)
    {
      if success {
        registeredParticipants := Seqs.Filter(registeredParticipants, HasOtherId(id));
      }
    }

    /** The first half of `handleToggleReady`: no request for an unknown id,
        otherwise the patch that flips the first matching row's flag. */
    method RequestToggle(id: string) returns (patch: Option<ParticipantPatch>)
      ensures patch.None? <==> forall p :: p in registeredParticipants ==> p.id != id
      ensures patch.Some? ==> exists i ::
        && 0 <= i < |registeredParticipants| && registeredParticipants[i].id == id
        && (forall j :: 0 <= j < i ==> registeredParticipants[j].id != id)
        && patch.value == TogglePatch(registeredParticipants[i])
    {
      var i := Seqs.FindIndex(registeredParticipants, HasId(id));
      if i == -1 {
        patch := None;
      } else {
        patch := Some(TogglePatch(registeredParticipants[i]));
      }
    }

    /** The second half: a non-null answer replaces every row with the id in
        the list as it is when the answer arrives. */
    method ApplyToggleResult(id: string, updated: Option<Participant>)
      modifies this`registeredParticipants
      ensures updated.Some? ==> registeredParticipants == ReplaceAll(old(registeredParticipants), id, updated.value)
      ensures updated.None? ==> registeredParticipants == old(registeredParticipants)
    {
      if updated.Some? {
        registeredParticipants := ReplaceAll(registeredParticipants, id, updated.value);
      }
    }
  }
}
