/**
 * `OnCallService`: the on-call schedule table, the rule that picks the
 * schedule on duty, and the create / partial-update / toggle operations.
 */
module OnCall {
  import opened Wrappers
  import opened Seqs
  import opened Entities

  /** A row of `on_call_schedule`; times in milliseconds, `start_at`/`end_at` nullable. */
  datatype OnCallSchedule = OnCallSchedule(
    id: nat,
    user_id: string,
    priority: int,
    active: bool,
    start_at: Option<int>,
    end_at: Option<int>,
    created_at: int,
    updated_at: int)

  /**
   * `parseDate`: absent or empty input is no date; otherwise `parse` (the
   * platform's date parser, `None` for an invalid date) must succeed.
   */
  function ParseDate(value: Option<string>, parse: string -> Option<int>): (r: Result<Option<int>>)
    ensures (value.None? || value.value == "") ==> r == Ok(None)
    ensures value.Some? && value.value != "" && parse(value.value).None? ==> r == Err(BadRequest)
    ensures value.Some? && value.value != "" && parse(value.value).Some? ==> r == Ok(parse(value.value))
  {
    if value.None? || value.value == "" then Ok(None)
    else if parse(value.value).None? then Err(BadRequest)
    else Ok(parse(value.value))
  }

  // ---------------------------------------------------------------------------
  // Selection of the schedule on duty.
  // ---------------------------------------------------------------------------

  /** Active, started (or no start) and not yet ended (or no end) at `now`. */
  predicate Eligible(s: OnCallSchedule, now: int)
  {
    s.active &&
    (s.start_at.None? || s.start_at.value <= now) &&
    (s.end_at.None? || s.end_at.value >= now)
  }

  /** `start_at DESC NULLS LAST`: `a` sorts strictly before `b` on the start time. */
  predicate StartsLater(a: OnCallSchedule, b: OnCallSchedule)
  {
    (a.start_at.Some? && b.start_at.None?) ||
    (a.start_at.Some? && b.start_at.Some? && a.start_at.value > b.start_at.value)
  }

  /**
   * The query order: optionally `priority ASC` first, then `start_at DESC
   * NULLS LAST`, then `created_at DESC`; `a` sorts strictly before `b`.
   */
  predicate Before(a: OnCallSchedule, b: OnCallSchedule, byPriority: bool)
  {
    if byPriority && a.priority != b.priority then a.priority < b.priority
    else StartsLater(a, b) || (a.start_at == b.start_at && a.created_at > b.created_at)
  }

  lemma BeforeIrreflexive(a: OnCallSchedule, byPriority: bool)
    ensures !Before(a, a, byPriority)
  {
  }

  lemma BeforeTransitive(a: OnCallSchedule, b: OnCallSchedule, c: OnCallSchedule, byPriority: bool)
    requires Before(a, b, byPriority) && Before(b, c, byPriority)
    ensures Before(a, c, byPriority)
  {
  }

  /** The first row of `s` in the query order (`getOne`); ties keep the earlier row. */
  function {:induction false} First(s: seq<OnCallSchedule>, byPriority: bool): (r: OnCallSchedule)
    requires |s| > 0
    ensures r in s
    ensures forall x :: x in s ==> !Before(x, r, byPriority)
    decreases |s|
  {
    if |s| == 1 then
      BeforeIrreflexive(s[0], byPriority);
      s[0]
    else
      var init := s[..|s| - 1];
      var last := s[|s| - 1];
      var b := First(init, byPriority);
      assert forall x :: x in s ==> x in init || x == last by {
        assert s == init + [last];
      }
      if Before(last, b, byPriority) then
        BeforeIrreflexive(last, byPriority);
        assert forall x :: x in init ==> !Before(x, last, byPriority) by {
          forall x | x in init && Before(x, last, byPriority)
            ensures false
          {
            BeforeTransitive(x, last, b, byPriority);
          }
        }
        last
      else
        b
  }

  /** `findByPriority`: the first eligible schedule of that priority, or none. */
  function FindByPriority(schedules: seq<OnCallSchedule>, priority: int, now: int): (r: Option<OnCallSchedule>)
    ensures r.None? <==> forall i :: 0 <= i < |schedules| ==> !(Eligible(schedules[i], now) && schedules[i].priority == priority)
    ensures r.Some? ==> r.value in schedules && Eligible(r.value, now) && r.value.priority == priority
    ensures r.Some? ==> forall s :: s in schedules && Eligible(s, now) && s.priority == priority ==> !Before(s, r.value, false)
  {
    var wanted := s => Eligible(s, now) && s.priority == priority;
    FilterMembers(schedules, wanted);
    var candidates := Filter(schedules, wanted);
    if |candidates| == 0 then None else Some(First(candidates, false))
  }

  /** `current`: the first eligible schedule of any priority, lowest priority first. */
  function Current(schedules: seq<OnCallSchedule>, now: int): (r: Option<OnCallSchedule>)
    ensures r.None? <==> forall i :: 0 <= i < |schedules| ==> !Eligible(schedules[i], now)
    ensures r.Some? ==> r.value in schedules && Eligible(r.value, now)
    ensures r.Some? ==> forall s :: s in schedules && Eligible(s, now) ==> !Before(s, r.value, true)
  {
    var wanted := s => Eligible(s, now);
    FilterMembers(schedules, wanted);
    var candidates := Filter(schedules, wanted);
    if |candidates| == 0 then None else Some(First(candidates, true))
  }

  /** The schedule on duty has the lowest priority number of all eligible schedules. */
  lemma CurrentHasLowestPriority(schedules: seq<OnCallSchedule>, now: int)
    requires Current(schedules, now).Some?
    ensures forall s :: s in schedules && Eligible(s, now) ==> Current(schedules, now).value.priority <= s.priority
  {
  }

  /**
   * Among eligible schedules of the requested priority, the one picked has the
   * latest start (a start beats none) and, at an equal start, the newest creation.
   */
  lemma FindByPriorityPrefersLatestStart(schedules: seq<OnCallSchedule>, priority: int, now: int)
    requires FindByPriority(schedules, priority, now).Some?
    ensures var r := FindByPriority(schedules, priority, now).value;
      forall s :: s in schedules && Eligible(s, now) && s.priority == priority ==>
        (r.start_at.None? ==> s.start_at.None?) &&
        (r.start_at.Some? && s.start_at.Some? ==> s.start_at.value <= r.start_at.value) &&
        (s.start_at == r.start_at ==> s.created_at <= r.created_at)
  {
  }

  /** `current` agrees with `findByPriority` for the priority it lands on. */
  lemma CurrentIsFirstOfItsPriority(schedules: seq<OnCallSchedule>, now: int)
    requires Current(schedules, now).Some?
    ensures var c := Current(schedules, now).value;
      forall s :: s in schedules && Eligible(s, now) && s.priority == c.priority ==> !Before(s, c, false)
  {
  }

  // ---------------------------------------------------------------------------
  // The schedule table.
  // ---------------------------------------------------------------------------

  datatype CreateScheduleDto = CreateScheduleDto(
    user_id: string,
    priority: int,
    active: Option<bool>,
    start_at: Option<string>,
    end_at: Option<string>)

  /**
   * Every field optional; an explicit `null` date is the same as `""` here.
   * Either parses to no date, which `update` assigns as `undefined`: the save
   * then skips the column, so the stored date stays.
   */
  datatype UpdateScheduleDto = UpdateScheduleDto(
    user_id: Option<string>,
    priority: Option<int>,
    active: Option<bool>,
    start_at: Option<string>,
    end_at: Option<string>)

  predicate UserExists(users: seq<User>, id: string)
  {
    exists i :: 0 <= i < |users| && users[i].id == id
  }

  function FindSchedule(schedules: seq<OnCallSchedule>, id: nat): (r: Option<nat>)
    ensures r.Some? ==> r.value < |schedules| && schedules[r.value].id == id
    ensures r.None? ==> forall i :: 0 <= i < |schedules| ==> schedules[i].id != id
  {
    FindFirst(schedules, (s: OnCallSchedule) => s.id == id)
  }

  /**
   * The fields `update` changes, given the already parsed dates; a date that
   * parses to nothing is saved as `undefined` and leaves the stored one.
   */
  function ApplyUpdate(s: OnCallSchedule, dto: UpdateScheduleDto, start: Option<int>, end: Option<int>, now: int): OnCallSchedule
  {
    s.(user_id := if dto.user_id.Some? && dto.user_id.value != "" then dto.user_id.value else s.user_id,
       priority := if dto.priority.Some? then dto.priority.value else s.priority,
       active := if dto.active.Some? then dto.active.value else s.active,
       start_at := if dto.start_at.Some? && start.Some? then start else s.start_at,
       end_at := if dto.end_at.Some? && end.Some? then end else s.end_at,
       updated_at := now)
  }

  /** A field the update does not name keeps its value; a named one takes the new value. */
  lemma UpdateTouchesOnlyGivenFields(s: OnCallSchedule, dto: UpdateScheduleDto, start: Option<int>, end: Option<int>, now: int)
    ensures var u := ApplyUpdate(s, dto, start, end, now);
      u.id == s.id && u.created_at == s.created_at &&
      (dto.user_id.None? || dto.user_id.value == "" ==> u.user_id == s.user_id) &&
      (dto.user_id.Some? && dto.user_id.value != "" ==> u.user_id == dto.user_id.value) &&
      (dto.priority.None? ==> u.priority == s.priority) &&
      (dto.priority.Some? ==> u.priority == dto.priority.value) &&
      (dto.active.None? ==> u.active == s.active) &&
      (dto.active.Some? ==> u.active == dto.active.value) &&
      (dto.start_at.None? || start.None? ==> u.start_at == s.start_at) &&
      (dto.start_at.Some? && start.Some? ==> u.start_at == start) &&
      (dto.end_at.None? || end.None? ==> u.end_at == s.end_at) &&
      (dto.end_at.Some? && end.Some? ==> u.end_at == end) &&
      u.start_at.Some? == (s.start_at.Some? || (dto.start_at.Some? && start.Some?)) &&
      u.end_at.Some? == (s.end_at.Some? || (dto.end_at.Some? && end.Some?))
  {
  }

  /** An update naming nothing changes nothing but the update time. */
  lemma EmptyUpdateKeepsSchedule(s: OnCallSchedule, start: Option<int>, end: Option<int>, now: int)
    ensures ApplyUpdate(s, UpdateScheduleDto(None, None, None, None, None), start, end, now) == s.(updated_at := now)
  {
  }

  /** The schedule `toggleActive` saves: the flag flipped, every other field kept, stamped `now`. */
  function Toggled(s: OnCallSchedule, now: int): (t: OnCallSchedule)
    ensures t.active == !s.active && t.updated_at == now
    ensures t.id == s.id && t.user_id == s.user_id && t.priority == s.priority
    ensures t.start_at == s.start_at && t.end_at == s.end_at && t.created_at == s.created_at
  {
    s.(active := !s.active, updated_at := now)
  }

  /** Distinct ids, all below the next id to hand out. */
  predicate ValidSchedules(schedules: seq<OnCallSchedule>, nextId: nat)
  {
    (forall i :: 0 <= i < |schedules| ==> schedules[i].id < nextId) &&
    (forall i, j :: 0 <= i < j < |schedules| ==> schedules[i].id != schedules[j].id)
  }

  lemma ReplacePreservesValid(schedules: seq<OnCallSchedule>, i: nat, s: OnCallSchedule, nextId: nat)
    requires ValidSchedules(schedules, nextId) && i < |schedules| && s.id == schedules[i].id
    ensures ValidSchedules(schedules[i := s], nextId)
  {
  }

  /**
   * The field assignments of `update` on the loaded schedule: an unknown new
   * user or an unparsable date is a bad request.
   */
  method UpdatedSchedule(s0: OnCallSchedule, dto: UpdateScheduleDto, users: seq<User>, parse: string -> Option<int>, now: int)
    returns (r: Result<OnCallSchedule>)
    ensures dto.user_id.Some? && dto.user_id.value != "" && !UserExists(users, dto.user_id.value) ==> r == Err(BadRequest)
    ensures r.Err? ==> r == Err(BadRequest)
    ensures r.Ok? <==> (dto.user_id.None? || dto.user_id.value == "" || UserExists(users, dto.user_id.value)) &&
                       ParseDate(dto.start_at, parse).Ok? && ParseDate(dto.end_at, parse).Ok?
    ensures r.Ok? ==> r.value == ApplyUpdate(s0, dto, ParseDate(dto.start_at, parse).value, ParseDate(dto.end_at, parse).value, now)
  {
    var s := s0;
    if dto.user_id.Some? && dto.user_id.value != "" {
      if !UserExists(users, dto.user_id.value) {
        return Err(BadRequest);
      }
      s := s.(user_id := dto.user_id.value);
    }
    if dto.priority.Some? {
      s := s.(priority := dto.priority.value);
    }
    if dto.active.Some? {
      s := s.(active := dto.active.value);
    }
    if dto.start_at.Some? {
      var start := ParseDate(dto.start_at, parse);
      if start.Err? {
        return Err(BadRequest);
      }
      if start.value.Some? {
        s := s.(start_at := start.value);
      }
    }
    if dto.end_at.Some? {
      var end := ParseDate(dto.end_at, parse);
      if end.Err? {
        return Err(BadRequest);
      }
      if end.value.Some? {
        s := s.(end_at := end.value);
      }
    }
    r := Ok(s.(updated_at := now));
  }

  class OnCallService {
    var schedules: seq<OnCallSchedule>
    var nextId: nat

    ghost predicate Valid()
      reads this
    {
      ValidSchedules(schedules, nextId)
    }

    constructor ()
      ensures Valid() && schedules == [] && nextId == 0
    {
      schedules := [];
      nextId := 0;
    }

    /**
     * `create`: rejects an unknown user or an invalid date; otherwise stores a
     * schedule that is active unless the request says otherwise.
     */
    method Create(dto: CreateScheduleDto, users: seq<User>, parse: string -> Option<int>, now: int)
      returns (r: Result<OnCallSchedule>)
      requires Valid()
      modifies this
      ensures Valid()
      ensures !UserExists(users, dto.user_id) ==> r == Err(BadRequest)
      ensures r.Err? ==> schedules == old(schedules) && nextId == old(nextId)
      ensures r.Ok? ==>
        UserExists(users, dto.user_id) &&
        ParseDate(dto.start_at, parse).Ok? && ParseDate(dto.end_at, parse).Ok? &&
        r.value == OnCallSchedule(old(nextId), dto.user_id, dto.priority, OrElse(dto.active, true),
                                  ParseDate(dto.start_at, parse).value, ParseDate(dto.end_at, parse).value, now, now) &&
        schedules == old(schedules) + [r.value] && nextId == old(nextId) + 1
      ensures UserExists(users, dto.user_id) && ParseDate(dto.start_at, parse).Ok? && ParseDate(dto.end_at, parse).Ok? ==> r.Ok?
    {
      if !UserExists(users, dto.user_id) {
        return Err(BadRequest);
      }
      var start := ParseDate(dto.start_at, parse);
      if start.Err? {
        return Err(BadRequest);
      }
      var end := ParseDate(dto.end_at, parse);
      if end.Err? {
        return Err(BadRequest);
      }
      var active := if dto.active.Some? then dto.active.value else true;
      var s := OnCallSchedule(nextId, dto.user_id, dto.priority, active, start.value, end.value, now, now);
      schedules := schedules + [s];
      nextId := nextId + 1;
      r := Ok(s);
    }

    /**
     * `update`: loads the schedule, checks a new user, assigns the fields the
     * request names and saves; any failure leaves the table unchanged.
     */
    method Update(id: nat, dto: UpdateScheduleDto, users: seq<User>, parse: string -> Option<int>, now: int)
      returns (r: Result<OnCallSchedule>)
      requires Valid()
      modifies this
      ensures Valid() && nextId == old(nextId)
      ensures FindSchedule(old(schedules), id).None? ==> r == Err(NotFound)
      ensures r.Err? ==> schedules == old(schedules)
      ensures (FindSchedule(old(schedules), id).Some? && dto.user_id.Some? && dto.user_id.value != "" &&
               !UserExists(users, dto.user_id.value)) ==> r == Err(BadRequest)
      ensures r.Ok? ==>
        var i := FindSchedule(old(schedules), id).value;
        ParseDate(dto.start_at, parse).Ok? && ParseDate(dto.end_at, parse).Ok? &&
        r.value == ApplyUpdate(old(schedules)[i], dto, ParseDate(dto.start_at, parse).value, ParseDate(dto.end_at, parse).value, now) &&
        schedules == old(schedules)[i := r.value]
      ensures (FindSchedule(old(schedules), id).Some? &&
               (dto.user_id.None? || dto.user_id.value == "" || UserExists(users, dto.user_id.value)) &&
               ParseDate(dto.start_at, parse).Ok? && ParseDate(dto.end_at, parse).Ok?) ==> r.Ok?
    {
      var found := FindSchedule(schedules, id);
      if found.None? {
        return Err(NotFound);
      }
      var i := found.value;
      r := UpdatedSchedule(schedules[i], dto, users, parse, now);
      if r.Err? {
        return;
      }
      ReplacePreservesValid(schedules, i, r.value, nextId);
      schedules := schedules[i := r.value];
    }

    /** `toggleActive`: flips `active` on a known schedule, NotFound otherwise. */
    method ToggleActive(id: nat, now: int) returns (r: Result<OnCallSchedule>)
      requires Valid()
      modifies this
      ensures Valid() && nextId == old(nextId)
      ensures FindSchedule(old(schedules), id).None? ==> r == Err(NotFound) && schedules == old(schedules)
      ensures FindSchedule(old(schedules), id).Some? ==>
        var i := FindSchedule(old(schedules), id).value;
        r == Ok(Toggled(old(schedules)[i], now)) &&
        schedules == old(schedules)[i := r.value]
    {
      var found := FindSchedule(schedules, id);
      if found.None? {
        return Err(NotFound);
      }
      var i := found.value;
      var s := Toggled(schedules[i], now);
      ReplacePreservesValid(schedules, i, s, nextId);
      schedules := schedules[i := s];
      r := Ok(s);
    }
  }

  /** Toggling twice restores the schedule; only the update time moves on. */
  lemma ToggleTwiceRestores(s: OnCallSchedule, t1: int, t2: int)
    ensures Toggled(Toggled(s, t1), t2) == s.(updated_at := t2)
    ensures Toggled(s, t1) != s
  {
  }
}
