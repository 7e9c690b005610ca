/** The backend's single settings record (`SettingsService`). */
module Settings {
  import opened Options

  /** `EventSettingsDto`: date `YYYY-MM-DD`, time `HH:mm`, round length in minutes. */
  datatype EventSettings = EventSettings(eventDate: string, eventTime: string, roundDuration: int)

  /** `Partial<EventSettingsDto>`: an absent field is `None`. */
  datatype SettingsPatch = SettingsPatch(
    eventDate: Option<string>,
    eventTime: Option<string>,
    roundDuration: Option<int>)

  const Initial := EventSettings("2024-08-20", "19:00", 7)

  const NoChange := SettingsPatch(None, None, None)

  /** `{ ...s, ...p }`: fields present in the patch replace, absent ones are kept. */
  function Merge(s: EventSettings, p: SettingsPatch): (r: EventSettings)
    ensures p.eventDate.Some? ==> r.eventDate == p.eventDate.value
    ensures p.eventDate.None? ==> r.eventDate == s.eventDate
    ensures p.eventTime.Some? ==> r.eventTime == p.eventTime.value
    ensures p.eventTime.None? ==> r.eventTime == s.eventTime
    ensures p.roundDuration.Some? ==> r.roundDuration == p.roundDuration.value
    ensures p.roundDuration.None? ==> r.roundDuration == s.roundDuration
  {
    EventSettings(
      p.eventDate.GetOr(s.eventDate),
      p.eventTime.GetOr(s.eventTime),
      p.roundDuration.GetOr(s.roundDuration))
  }

  /** The empty patch changes nothing; applying a patch twice is applying it once;
      a later patch wins over an earlier one on the fields it carries. */
  lemma MergeLaws(s: EventSettings, p: SettingsPatch, q: SettingsPatch)
    ensures Merge(s, NoChange) == s
    ensures Merge(Merge(s, p), p) == Merge(s, p)
    ensures Merge(Merge(s, p), q) == Merge(s, Then(p, q))
  {
  }

  /** The patch equivalent to `p` followed by `q`. */
  function Then(p: SettingsPatch, q: SettingsPatch): SettingsPatch {
    SettingsPatch(
      if q.eventDate.Some? then q.eventDate else p.eventDate,
      if q.eventTime.Some? then q.eventTime else p.eventTime,
      if q.roundDuration.Some? then q.roundDuration else p.roundDuration)
  }

  class SettingsService {
    var settings: EventSettings

    constructor()
      ensures settings == Initial
    {
      settings := Initial;
    }

    /** The current settings; nothing changes. */
    method Get() returns (r: EventSettings)
      ensures r == settings
    {
      r := settings;
    }

    /** Replaces the settings by the patch merged over them and returns them. */
    method Update(p: SettingsPatch) returns (r: EventSettings)
      modifies this
      ensures settings == Merge(old(settings), p)
      ensures r == settings
    {
      settings := Merge(settings, p);
      r := settings;
    }
  }

  /** `get` after `update(p)` reflects every field of `p`. */
  method GetAfterUpdate(svc: SettingsService, p: SettingsPatch) returns (r: EventSettings)
    modifies svc
    ensures p.eventDate.Some? ==> r.eventDate == p.eventDate.value
    ensures p.eventTime.Some? ==> r.eventTime == p.eventTime.value
    ensures p.roundDuration.Some? ==> r.roundDuration == p.roundDuration.value
  {
    var _ := svc.Update(p);
    r := svc.Get();
  }
}
