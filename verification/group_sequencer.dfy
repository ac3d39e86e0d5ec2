/**
 * Zone groups: `runGroup` runs the zones of a group one after another. Every
 * member is queued at once, the first starts now, and each later one waits
 * on a timer of its own that re-checks the concurrency ceiling when it fires.
 * `createGroup` and `updateGroup` write the membership rows the run reads
 * back in sequence order.
 *
 * The group row, its members (already joined with their zone names and sorted
 * by sequence order), the settings row and the zone rows are parameters; the
 * clock is `now`, in milliseconds; a pending member start is an entry of
 * `pending`, and its firing is `FireMemberStart`.
 */
module GroupSequencer {
  import opened Wrappers
  import opened Strings
  import opened Constants
  import opened JsMaps
  import opened Gpio
  import opened ZoneManagerService

  datatype Group = Group(id: int, name: string, defaultDuration: int)

  /** A member zone as the run reads it: its id and name. */
  datatype Member = Member(id: int, name: string)

  /** A `zone_group_members` row. */
  datatype MemberRow = MemberRow(groupId: int, zoneId: int, sequenceOrder: int)

  /** An element of the roster `runGroup` answers with. */
  datatype RosterEntry =
    | RunningNow(zoneId: int, zoneName: string, duration: int)
    | QueuedLater(zoneId: int, zoneName: string, duration: int, startInMinutes: int)

  /** `runGroup`'s answer. */
  datatype GroupRun = GroupRun(groupId: int, groupName: string, duration: int, totalZones: int, zones: seq<RosterEntry>)

  /** A refused request: the HTTP status and the error text. */
  datatype Refusal = Refusal(status: int, error: string)

  /** A later member's pending start, due at `dueAt`. */
  datatype MemberStart = MemberStart(member: Member, duration: int, dueAt: int)

  /** What a member's timer did when it fired. */
  datatype FireOutcome = Started(info: StartInfo) | Abandoned | StartFailed(error: string)

  const GROUP_NOT_FOUND := "Zone group not found"
  const NO_ZONES := "No zones in this group"
  const NAME_REQUIRED := "Group name is required"
  const ZONES_REQUIRED := "At least one zone must be selected"

  /** The pause between one member's end and the next member's start. */
  const GAP_MS := 5000

  function AlreadyRunningMessage(name: string): string {
    "Zone " + name + " is already running"
  }

  /** `duration || group.default_duration`: a missing or zero duration falls back to the default. */
  function RunDuration(requested: Option<int>, defaultDuration: int): (d: int)
    ensures requested.Some? && requested.value != 0 ==> d == requested.value
    ensures requested.None? || requested.value == 0 ==> d == defaultDuration
  {
    if requested.Some? && requested.value != 0 then requested.value else defaultDuration
  }

  /** Milliseconds from the run's start until member `i` is due. */
  function Delay(d: int, i: nat): int {
    if i == 0 then 0 else d * 60 * 1000 * i + GAP_MS * i
  }

  /** Each member is due one full run plus the gap after the one before it. */
  lemma DelayIsLinear(d: int, i: nat)
    ensures Delay(d, i) == (Minutes(d) + GAP_MS) * i
  {
  }

  /** Member `i + 1` is due the gap after member `i`'s auto-stop, when member `i` started on time. */
  lemma DelayStep(d: int, i: nat)
    ensures Delay(d, i + 1) == Delay(d, i) + Minutes(d) + GAP_MS
  {
    DelayIsLinear(d, i);
    DelayIsLinear(d, i + 1);
  }

  /** With a non-negative duration the members are due in sequence order, strictly one after another. */
  lemma DelaysIncrease(d: int, i: nat, j: nat)
    requires d >= 0 && i < j
    ensures Delay(d, i) < Delay(d, j)
  {
    DelayIsLinear(d, i);
    DelayIsLinear(d, j);
    assert (Minutes(d) + GAP_MS) * j == (Minutes(d) + GAP_MS) * i + (Minutes(d) + GAP_MS) * (j - i);
    assert (Minutes(d) + GAP_MS) * (j - i) > 0;
  }

  /** `Math.floor(delayMs / 60000)`. */
  function StartInMinutes(d: int, i: nat): int {
    Delay(d, i) / 60000
  }

  /** The roster's minutes: `d` per member before, plus one per twelve five-second gaps. */
  lemma StartInMinutesValue(d: int, i: nat)
    ensures StartInMinutes(d, i) == d * i + i / 12
  {
    var q, r := i / 12, i % 12;
    assert Delay(d, i) == 60000 * (d * i + q) + 5000 * r by {
      DelayIsLinear(d, i);
      assert i == 12 * q + r;
      assert GAP_MS * i == 60000 * q + 5000 * r;
    }
    assert 0 <= 5000 * r < 60000;
  }

  /** The index of the first member, in sequence order, whose zone is running. */
  function FirstRunning(members: seq<Member>, running: JsMap<int, RunningZone>): (r: Option<nat>)
    ensures r.Some? ==> r.value < |members| && running.Has(members[r.value].id)
    ensures r.Some? ==> forall k | 0 <= k < r.value :: !running.Has(members[k].id)
    ensures r.None? ==> forall k | 0 <= k < |members| :: !running.Has(members[k].id)
  {
    if members == [] then None
    else if running.Has(members[0].id) then Some(0)
    else
      match FirstRunning(members[1..], running)
      case None => None
      case Some(k) => Some(k + 1)
  }

  /** The checks of `runGroup`, in code order: the refusal of the first that fails. */
  function RunGroupCheck(group: Option<Group>, members: seq<Member>, running: JsMap<int, RunningZone>)
    : (refusal: Option<Refusal>)
    ensures group.None? ==> refusal == Some(Refusal(HTTP_NOT_FOUND, GROUP_NOT_FOUND))
    ensures group.Some? && members == [] ==> refusal == Some(Refusal(HTTP_BAD_REQUEST, NO_ZONES))
    ensures (group.Some? && members != []) ==>
      (refusal.None? <==> forall k | 0 <= k < |members| :: !running.Has(members[k].id))
    // the refusal names the first running member
    ensures (group.Some? && members != [] && refusal.Some?) ==>
      exists k | 0 <= k < |members| ::
        running.Has(members[k].id) && (forall j | 0 <= j < k :: !running.Has(members[j].id))
        && refusal.value == Refusal(HTTP_BAD_REQUEST, AlreadyRunningMessage(members[k].name))
  {
    if group.None? then Some(Refusal(HTTP_NOT_FOUND, GROUP_NOT_FOUND))
    else if members == [] then Some(Refusal(HTTP_BAD_REQUEST, NO_ZONES))
    else
      match FirstRunning(members, running)
      case Some(k) => Some(Refusal(HTTP_BAD_REQUEST, AlreadyRunningMessage(members[k].name)))
      case None => None
  }

  /** Member `i`'s queue entry: position `i + 1` of `n`, due `Delay(d, i)` after `now`. */
  function EntryFor(group: Group, n: int, d: int, now: int, i: nat): QueueEntry {
    QueueEntry(group.id, group.name, i + 1, n, now + Delay(d, i))
  }

  /** The queue after the first `n` members were queued, in order, on top of `q`. */
  function QueuedUpTo(q: JsMap<int, QueueEntry>, group: Group, members: seq<Member>, d: int, now: int, n: nat)
    : (r: JsMap<int, QueueEntry>)
    requires q.Valid() && n <= |members|
    ensures r.Valid()
    decreases n
  {
    if n == 0 then q
    else QueuedUpTo(q, group, members, d, now, n - 1).Set(members[n - 1].id, EntryFor(group, |members|, d, now, n - 1))
  }

  predicate DistinctIds(members: seq<Member>) {
    forall i, j | 0 <= i < j < |members| :: members[i].id != members[j].id
  }

  /** With distinct member zones, queueing the first `n` members gives each its own position and due time. */
  lemma {:induction false} QueuedUpToMembers(q: JsMap<int, QueueEntry>, group: Group, members: seq<Member>,
                                            d: int, now: int, n: nat)
    requires q.Valid() && n <= |members| && DistinctIds(members)
    ensures forall i | 0 <= i < n ::
      members[i].id in QueuedUpTo(q, group, members, d, now, n).entries
      && QueuedUpTo(q, group, members, d, now, n).entries[members[i].id] == EntryFor(group, |members|, d, now, i)
  {
    if n > 0 {
      QueuedUpToMembers(q, group, members, d, now, n - 1);
      var prev := QueuedUpTo(q, group, members, d, now, n - 1);
      var id := members[n - 1].id;
      assert QueuedUpTo(q, group, members, d, now, n).entries == prev.entries[id := EntryFor(group, |members|, d, now, n - 1)];
      forall i | 0 <= i < n - 1
        ensures members[i].id in QueuedUpTo(q, group, members, d, now, n).entries
          && QueuedUpTo(q, group, members, d, now, n).entries[members[i].id] == EntryFor(group, |members|, d, now, i)
      {
        assert members[i].id != id;
      }
    }
  }

  /** Queueing the first `n` members leaves every other zone's entry as it was and adds no other zone. */
  lemma {:induction false} QueuedUpToOthers(q: JsMap<int, QueueEntry>, group: Group, members: seq<Member>,
                                           d: int, now: int, n: nat)
    requires q.Valid() && n <= |members|
    ensures forall z | z in q.entries && (forall i | 0 <= i < n :: members[i].id != z) ::
      z in QueuedUpTo(q, group, members, d, now, n).entries
      && QueuedUpTo(q, group, members, d, now, n).entries[z] == q.entries[z]
    ensures forall z | z in QueuedUpTo(q, group, members, d, now, n).entries ::
      z in q.entries || exists i | 0 <= i < n :: members[i].id == z
  {
    if n > 0 {
      QueuedUpToOthers(q, group, members, d, now, n - 1);
      var prev := QueuedUpTo(q, group, members, d, now, n - 1);
      assert QueuedUpTo(q, group, members, d, now, n).entries
          == prev.entries[members[n - 1].id := EntryFor(group, |members|, d, now, n - 1)];
    }
  }

  /** The roster entries of members 1 .. n-1: queued, with their start in minutes. */
  function LaterRoster(members: seq<Member>, d: int, n: nat): (roster: seq<RosterEntry>)
    requires 1 <= n <= |members|
    ensures |roster| == n - 1
    ensures forall i | 1 <= i < n ::
      roster[i - 1] == QueuedLater(members[i].id, members[i].name, d, StartInMinutes(d, i))
    decreases n
  {
    if n == 1 then []
    else LaterRoster(members, d, n - 1) + [QueuedLater(members[n - 1].id, members[n - 1].name, d, StartInMinutes(d, n - 1))]
  }

  /** The pending starts after members 1 .. n-1 were given timers `base`, `base + 1`, ... on top of `p`. */
  function PendingUpTo(p: map<nat, MemberStart>, base: nat, members: seq<Member>, d: int, now: int, n: nat)
    : map<nat, MemberStart>
    requires 1 <= n <= |members|
    decreases n
  {
    if n == 1 then p
    else PendingUpTo(p, base, members, d, now, n - 1)[base + n - 2 := MemberStart(members[n - 1], d, now + Delay(d, n - 1))]
  }

  /**
   * Arming on fresh handles keeps every earlier pending start, gives member
   * `i` the start due `Delay(d, i)` after `now` under handle `base + i - 1`, and
   * adds no other handle.
   */
  lemma {:induction false} PendingUpToEntries(p: map<nat, MemberStart>, base: nat, members: seq<Member>,
                                             d: int, now: int, n: nat)
    requires 1 <= n <= |members|
    requires forall h | h in p :: h < base
    ensures forall h | h in p :: h in PendingUpTo(p, base, members, d, now, n) && PendingUpTo(p, base, members, d, now, n)[h] == p[h]
    ensures forall h | base <= h < base + n - 1 ::
      h in PendingUpTo(p, base, members, d, now, n)
      && PendingUpTo(p, base, members, d, now, n)[h] == MemberStart(members[h - base + 1], d, now + Delay(d, h - base + 1))
    ensures forall h | h in PendingUpTo(p, base, members, d, now, n) :: h in p || base <= h < base + n - 1
  {
    if n > 1 {
      PendingUpToEntries(p, base, members, d, now, n - 1);
      var prev := PendingUpTo(p, base, members, d, now, n - 1);
      assert PendingUpTo(p, base, members, d, now, n) == prev[base + n - 2 := MemberStart(members[n - 1], d, now + Delay(d, n - 1))];
    }
  }

  /** The zone ids of membership rows, in row order. */
  function ZoneIds(rows: seq<MemberRow>): (ids: seq<int>)
    ensures |ids| == |rows|
    ensures forall i | 0 <= i < |rows| :: ids[i] == rows[i].zoneId
  {
    if rows == [] then [] else [rows[0].zoneId] + ZoneIds(rows[1..])
  }

  /** `createGroup`'s checks: a name that is not blank, and at least one zone. */
  function CreateGroupCheck(name: Option<string>, zones: seq<int>): (refusal: Option<Refusal>)
    ensures refusal.None? <==> name.Some? && Trim(name.value) != "" && zones != []
    ensures (name.None? || Trim(name.value) == "") ==> refusal == Some(Refusal(HTTP_BAD_REQUEST, NAME_REQUIRED))
    ensures (name.Some? && Trim(name.value) != "" && zones == []) ==>
      refusal == Some(Refusal(HTTP_BAD_REQUEST, ZONES_REQUIRED))
  {
    if name.None? || Trim(name.value) == "" then Some(Refusal(HTTP_BAD_REQUEST, NAME_REQUIRED))
    else if zones == [] then Some(Refusal(HTTP_BAD_REQUEST, ZONES_REQUIRED))
    else None
  }

  /**
   * The membership rows `createGroup` and `updateGroup` insert: `zones[i]`
   * with sequence order `i`, so reading them back in sequence order gives the
   * request's list.
   */
  method InsertMembers(groupId: int, zones: seq<int>) returns (rows: seq<MemberRow>)
    ensures ZoneIds(rows) == zones
    ensures forall i | 0 <= i < |rows| :: rows[i].groupId == groupId && rows[i].sequenceOrder == i
  {
    rows := [];
    var i := 0;
    while i < |zones|
      invariant 0 <= i <= |zones|
      invariant |rows| == i
      invariant forall k | 0 <= k < i :: rows[k] == MemberRow(groupId, zones[k], k)
    {
      rows := rows + [MemberRow(groupId, zones[i], i)];
      i := i + 1;
    }
  }

  /** `createGroup`: the checks, then the new group's membership rows. */
  method CreateGroupMembers(name: Option<string>, zones: seq<int>, groupId: int)
    returns (r: Result<seq<MemberRow>, Refusal>)
    ensures CreateGroupCheck(name, zones).Some? ==> r == Err(CreateGroupCheck(name, zones).value)
    ensures CreateGroupCheck(name, zones).None? ==>
      r.Ok? && ZoneIds(r.value) == zones
      && forall i | 0 <= i < |r.value| :: r.value[i].groupId == groupId && r.value[i].sequenceOrder == i
  {
    var refusal := CreateGroupCheck(name, zones);
    if refusal.Some? {
      return Err(refusal.value);
    }
    var rows := InsertMembers(groupId, zones);
    r := Ok(rows);
  }

  /**
   * `updateGroup`'s membership: an unknown group is refused; a `zones` list
   * (even an empty one) replaces the rows; without one they stay.
   */
  method UpdateGroupMembers(group: Option<Group>, current: seq<MemberRow>, zones: Option<seq<int>>)
    returns (r: Result<seq<MemberRow>, Refusal>)
    ensures group.None? ==> r == Err(Refusal(HTTP_NOT_FOUND, GROUP_NOT_FOUND))
    ensures group.Some? && zones.None? ==> r == Ok(current)
    ensures group.Some? && zones.Some? ==>
      r.Ok? && ZoneIds(r.value) == zones.value
      && forall i | 0 <= i < |r.value| :: r.value[i].groupId == group.value.id && r.value[i].sequenceOrder == i
  {
    if group.None? {
      return Err(Refusal(HTTP_NOT_FOUND, GROUP_NOT_FOUND));
    }
    if zones.None? {
      return Ok(current);
    }
    var rows := InsertMembers(group.value.id, zones.value);
    r := Ok(rows);
  }

  class GroupRunner {
    const zm: ZoneManager
    /** Pending member starts by timer handle. */
    var pending: map<nat, MemberStart>
    var nextTimer: nat

    ghost predicate Valid()
      reads this, zm, zm.gpio, zm.gpio.Repr
    {
      zm.Valid() && this !in zm.gpio.Repr && forall h | h in pending :: h < nextTimer
    }

    constructor(zm: ZoneManager)
      requires zm.Valid()
      ensures Valid() && this.zm == zm && pending == map[] && nextTimer == 0
    {
      this.zm := zm;
      pending := map[];
      nextTimer := 0;
    }

    /** The queueing loop of `runGroup`: every member, in order, with its position and due time. */
    method QueueMembers(group: Group, members: seq<Member>, d: int, now: int)
      requires Valid()
      modifies zm
      ensures Valid()
      ensures zm.queuedZones == QueuedUpTo(old(zm.queuedZones), group, members, d, now, |members|)
      ensures zm.runningZones == old(zm.runningZones) && zm.timers == old(zm.timers)
      ensures zm.nextHandle == old(zm.nextHandle)
      ensures old(zm.Armed()) ==> zm.Armed()
      ensures old(zm.RelaysAgree()) ==> zm.RelaysAgree()
    {
      var i := 0;
      while i < |members|
        invariant 0 <= i <= |members|
        invariant Valid()
        invariant zm.queuedZones == QueuedUpTo(old(zm.queuedZones), group, members, d, now, i)
        invariant zm.runningZones == old(zm.runningZones) && zm.timers == old(zm.timers)
        invariant zm.nextHandle == old(zm.nextHandle)
      {
        zm.QueueZone(members[i].id, EntryFor(group, |members|, d, now, i));
        i := i + 1;
      }
    }

    /** The immediate start of the first member; a failed start takes it off the queue again. */
    method StartFirst(first: Member, d: int, maxSetting: Option<int>, zones: map<int, string>,
                      historyId: int, now: int)
      returns (started: bool)
      requires Valid()
      modifies zm, zm.gpio.Repr
      ensures Valid() && zm.gpio.gpioPins == old(zm.gpio.gpioPins)
      ensures started == (StartCheck(old(zm.runningZones), first.id, d, maxSetting, zones).None?
                          && first.id in zm.gpio.gpioPins)
      ensures started ==>
        zm.runningZones == old(zm.runningZones).Set(first.id,
          RunningZone(now, d, old(zm.nextHandle), historyId, TRIGGER_MANUAL, None))
        && zm.queuedZones == old(zm.queuedZones)
      ensures !started ==> zm.runningZones == old(zm.runningZones) && zm.queuedZones == old(zm.queuedZones).Delete(first.id)
      ensures old(zm.Armed()) ==> zm.Armed()
      ensures old(zm.RelaysAgree()) ==> zm.RelaysAgree()
    {
      var r := zm.StartZoneManaged(first.id, d, TRIGGER_MANUAL, None, maxSetting, zones, historyId, now);
      started := r.Ok?;
      if !started {
        zm.DequeueZone(first.id);
      }
    }

    /** The timer loop of `runGroup`: members 1 .. n-1 get a pending start each, with no check yet. */
    method ArmLater(members: seq<Member>, d: int, now: int) returns (roster: seq<RosterEntry>)
      requires Valid() && |members| >= 1
      modifies this
      ensures Valid()
      ensures roster == LaterRoster(members, d, |members|)
      ensures pending == PendingUpTo(old(pending), old(nextTimer), members, d, now, |members|)
      ensures nextTimer == old(nextTimer) + |members| - 1
    {
      roster := [];
      var i := 1;
      while i < |members|
        invariant 1 <= i <= |members|
        invariant roster == LaterRoster(members, d, i)
        invariant pending == PendingUpTo(old(pending), old(nextTimer), members, d, now, i)
        invariant nextTimer == old(nextTimer) + i - 1
        invariant Valid()
      {
        pending := pending[nextTimer := MemberStart(members[i], d, now + Delay(d, i))];
        nextTimer := nextTimer + 1;
        roster := roster + [QueuedLater(members[i].id, members[i].name, d, StartInMinutes(d, i))];
        i := i + 1;
      }
    }

    /**
     * `runGroup` past its checks, for group `g` and run duration `d`: queue
     * every member, start the first now, give each later one a timer.
     */
    method Launch(g: Group, members: seq<Member>, d: int, now: int,
                  maxSetting: Option<int>, zones: map<int, string>, historyId: int)
      returns (run: GroupRun)
      requires Valid() && |members| >= 1
      modifies this, zm, zm.gpio.Repr
      ensures Valid() && zm.gpio.gpioPins == old(zm.gpio.gpioPins)
      ensures var n := |members|;
        var queued := QueuedUpTo(old(zm.queuedZones), g, members, d, now, n);
        var started := StartCheck(old(zm.runningZones), members[0].id, d, maxSetting, zones).None?
                       && members[0].id in zm.gpio.gpioPins;
        // the first member is listed as running only when its start succeeded
        run == GroupRun(g.id, g.name, d, n,
                        (if started then [RunningNow(members[0].id, members[0].name, d)] else [])
                        + LaterRoster(members, d, n))
        && (started ==>
              zm.runningZones == old(zm.runningZones).Set(members[0].id,
                RunningZone(now, d, old(zm.nextHandle), historyId, TRIGGER_MANUAL, None))
              && zm.queuedZones == queued)
        && (!started ==> zm.runningZones == old(zm.runningZones) && zm.queuedZones == queued.Delete(members[0].id))
        // the later members are scheduled whatever became of the first
        && pending == PendingUpTo(old(pending), old(nextTimer), members, d, now, n)
        && nextTimer == old(nextTimer) + n - 1
      ensures old(zm.Armed()) ==> zm.Armed()
      ensures old(zm.RelaysAgree()) ==> zm.RelaysAgree()
    {
      QueueMembers(g, members, d, now);
      var started := StartFirst(members[0], d, maxSetting, zones, historyId, now);
      var later := ArmLater(members, d, now);
      var first := if started then [RunningNow(members[0].id, members[0].name, d)] else [];
      run := GroupRun(g.id, g.name, d, |members|, first + later);
    }

    /**
     * `runGroup` at time `now`. `members` are the group's zones in sequence
     * order, `requested` the request's duration, `maxSetting` and `zones` the
     * settings and zone rows, `historyId` the history row of the first start.
     */
    method RunGroup(group: Option<Group>, members: seq<Member>, requested: Option<int>, now: int,
                    maxSetting: Option<int>, zones: map<int, string>, historyId: int)
      returns (r: Result<GroupRun, Refusal>)
      requires Valid()
      modifies this, zm, zm.gpio.Repr
      ensures Valid() && zm.gpio.gpioPins == old(zm.gpio.gpioPins)
      // a refused run queues, starts and arms nothing
      ensures RunGroupCheck(group, members, old(zm.runningZones)).Some? ==>
        r == Err(RunGroupCheck(group, members, old(zm.runningZones)).value)
        && zm.runningZones == old(zm.runningZones) && zm.queuedZones == old(zm.queuedZones)
        && pending == old(pending) && nextTimer == old(nextTimer)
      ensures RunGroupCheck(group, members, old(zm.runningZones)).None? ==>
        var g := group.value;
        var d := RunDuration(requested, g.defaultDuration);
        var n := |members|;
        var queued := QueuedUpTo(old(zm.queuedZones), g, members, d, now, n);
        var started := StartCheck(old(zm.runningZones), members[0].id, d, maxSetting, zones).None?
                       && members[0].id in zm.gpio.gpioPins;
        r == Ok(GroupRun(g.id, g.name, d, n,
                         (if started then [RunningNow(members[0].id, members[0].name, d)] else [])
                         + LaterRoster(members, d, n)))
        && (started ==>
              zm.runningZones == old(zm.runningZones).Set(members[0].id,
                RunningZone(now, d, old(zm.nextHandle), historyId, TRIGGER_MANUAL, None))
              && zm.queuedZones == queued)
        && (!started ==> zm.runningZones == old(zm.runningZones) && zm.queuedZones == queued.Delete(members[0].id))
        && pending == PendingUpTo(old(pending), old(nextTimer), members, d, now, n)
        && nextTimer == old(nextTimer) + n - 1
      ensures old(zm.Armed()) ==> zm.Armed()
      ensures old(zm.RelaysAgree()) ==> zm.RelaysAgree()
    {
      var refusal := RunGroupCheck(group, members, zm.runningZones);
      if refusal.Some? {
        return Err(refusal.value);
      }
      var d := RunDuration(requested, group.value.defaultDuration);
      var run := Launch(group.value, members, d, now, maxSetting, zones, historyId);
      r := Ok(run);
    }

    /**
     * What a member's timer does with the member's pending start `m`: the
     * ceiling is read again; at the ceiling the member is dropped from the
     * queue and abandoned, otherwise it is started, and a failed start drops it
     * from the queue too.
     */
    method StartMember(m: MemberStart, now: int, maxSetting: Option<int>, zones: map<int, string>, historyId: int)
      returns (outcome: FireOutcome)
      requires Valid()
      modifies zm, zm.gpio.Repr
      ensures Valid() && zm.gpio.gpioPins == old(zm.gpio.gpioPins)
      ensures old(zm.runningZones.Size()) >= ConcurrencyLimit(maxSetting) ==>
        outcome == Abandoned
        && zm.runningZones == old(zm.runningZones) && zm.queuedZones == old(zm.queuedZones).Delete(m.member.id)
      ensures var failure := StartCheck(old(zm.runningZones), m.member.id, m.duration, maxSetting, zones);
        (old(zm.runningZones.Size()) < ConcurrencyLimit(maxSetting) && failure.Some?) ==>
          outcome == StartFailed(failure.value)
          && zm.runningZones == old(zm.runningZones) && zm.queuedZones == old(zm.queuedZones).Delete(m.member.id)
      ensures (old(zm.runningZones.Size()) < ConcurrencyLimit(maxSetting)
               && StartCheck(old(zm.runningZones), m.member.id, m.duration, maxSetting, zones).None?
               && m.member.id !in zm.gpio.gpioPins) ==>
        outcome == StartFailed(NotInitializedMessage(m.member.id))
        && zm.runningZones == old(zm.runningZones) && zm.queuedZones == old(zm.queuedZones).Delete(m.member.id)
      ensures (old(zm.runningZones.Size()) < ConcurrencyLimit(maxSetting)
               && StartCheck(old(zm.runningZones), m.member.id, m.duration, maxSetting, zones).None?
               && m.member.id in zm.gpio.gpioPins) ==>
        outcome.Started?
        && zm.runningZones == old(zm.runningZones).Set(m.member.id,
             RunningZone(now, m.duration, old(zm.nextHandle), historyId, TRIGGER_MANUAL, None))
        && zm.queuedZones == old(zm.queuedZones)
      ensures outcome.Started? ==> zm.runningZones.Size() <= ConcurrencyLimit(maxSetting)
      ensures old(zm.Armed()) ==> zm.Armed()
      ensures old(zm.RelaysAgree()) ==> zm.RelaysAgree()
    {
      SizeIsEntryCount(zm.runningZones);
      if zm.GetRunningZoneCount() >= ConcurrencyLimit(maxSetting) {
        zm.DequeueZone(m.member.id);
        return Abandoned;
      }
      var r := zm.StartZoneManaged(m.member.id, m.duration, TRIGGER_MANUAL, None, maxSetting, zones, historyId, now);
      if r.Err? {
        zm.DequeueZone(m.member.id);
        return StartFailed(r.error);
      }
      outcome := Started(r.value);
    }

    /** Member timer `handle` fires at time `now`: it is no longer pending, and the member's start is attempted. */
    method FireMemberStart(handle: nat, now: int, maxSetting: Option<int>, zones: map<int, string>, historyId: int)
      returns (outcome: FireOutcome)
      requires Valid()
      requires handle in pending && pending[handle].dueAt <= now
      modifies this, zm, zm.gpio.Repr
      ensures Valid() && zm.gpio.gpioPins == old(zm.gpio.gpioPins)
      ensures pending == old(pending) - {handle} && nextTimer == old(nextTimer)
      ensures old(zm.runningZones.Size()) >= ConcurrencyLimit(maxSetting) ==>
        outcome == Abandoned && zm.runningZones == old(zm.runningZones)
        && zm.queuedZones == old(zm.queuedZones).Delete(old(pending[handle]).member.id)
      ensures var m := old(pending[handle]);
        (old(zm.runningZones.Size()) < ConcurrencyLimit(maxSetting)
         && StartCheck(old(zm.runningZones), m.member.id, m.duration, maxSetting, zones).None?
         && m.member.id in zm.gpio.gpioPins) ==>
          outcome.Started?
          && zm.runningZones == old(zm.runningZones).Set(m.member.id,
               RunningZone(now, m.duration, old(zm.nextHandle), historyId, TRIGGER_MANUAL, None))
          && zm.queuedZones == old(zm.queuedZones)
      ensures !outcome.Started? ==>
        zm.runningZones == old(zm.runningZones) && zm.queuedZones == old(zm.queuedZones).Delete(old(pending[handle]).member.id)
      ensures outcome.Started? ==> zm.runningZones.Size() <= ConcurrencyLimit(maxSetting)
      ensures old(zm.Armed()) ==> zm.Armed()
      ensures old(zm.RelaysAgree()) ==> zm.RelaysAgree()
    {
      var m := pending[handle];
      pending := pending - {handle};
      outcome := StartMember(m, now, maxSetting, zones, historyId);
    }
  }
}
