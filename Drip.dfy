/**
 * The drip campaign of `schedule_messages` (app.py:133-176): five one-shot
 * jobs, each pushing one catalogue message to the user at a fixed offset after
 * the gift request. The jobs are the values handed to the scheduler; firing
 * them is outside this model.
 */
module Drip {
  import opened Wrappers

  type UserId = string

  /**
   * One `scheduler.add_job(send_message, "date", run_date, args)` call: the
   * push target, the catalogue key the message came from, the message text
   * looked up at scheduling time, and the absolute fire time in seconds.
   */
  datatype Job = Job(userId: UserId, key: string, message: string, runDate: int)

  /** One campaign entry: which catalogue message, how many seconds after the request. */
  datatype DripStep = DripStep(key: string, offset: int)

  /** The five offsets of the campaign, in seconds. */
  datatype DripOffsets = DripOffsets(day1: int, day2: int, blessing: int, day3: int, rosePath: int)

  /** The offsets the code runs with (app.py:141, 150, 157, 166, 174). */
  const DemoOffsets: DripOffsets := DripOffsets(30, 60, 70, 90, 92)

  /** The offsets in the commented-out lines: 24h, 48h, 48h 10m, 72h, 72h 10m (app.py:140, 149, 156, 165, 173). */
  const ProductionOffsets: DripOffsets :=
    DripOffsets(24 * 3600, 48 * 3600, 48 * 3600 + 10 * 60, 72 * 3600, 72 * 3600 + 10 * 60)

  /** The campaign in the order `schedule_messages` adds its jobs. */
  function Campaign(o: DripOffsets): seq<DripStep>
  {
    [ DripStep("day1_reminder", o.day1),
      DripStep("day2_invite", o.day2),
      DripStep("day2_blessing", o.blessing),
      DripStep("day3_teaser", o.day3),
      DripStep("rose_path", o.rosePath) ]
  }

  /** The catalogue holds every message the campaign pushes. */
  predicate HasDripMessages(catalog: map<string, string>)
  {
    && "day1_reminder" in catalog && "day2_invite" in catalog && "day2_blessing" in catalog
    && "day3_teaser" in catalog && "rose_path" in catalog
  }

  /** Every offset is positive and each is later than the one before. */
  predicate Ascending(o: DripOffsets)
  {
    0 < o.day1 < o.day2 < o.blessing < o.day3 < o.rosePath
  }

  lemma BothOffsetTablesAscending()
    ensures Ascending(DemoOffsets) && Ascending(ProductionOffsets)
  {
  }

  /**
   * What a run of `add_job` calls leaves behind: the jobs appended, and the
   * catalogue key whose lookup raised `KeyError` and stopped the run, if any.
   */
  datatype Enrolment = Enrolment(added: seq<Job>, missing: Option<string>)

  /**
   * Adding the jobs of `steps` one by one, each after looking up its message:
   * a missing key raises before its own job is added, and no later job is.
   */
  function Enrol(catalog: map<string, string>, userId: UserId, now: int, steps: seq<DripStep>): (e: Enrolment)
    ensures |e.added| <= |steps|
    ensures forall i :: 0 <= i < |e.added| ==> e.added[i].userId == userId
  {
    if steps == [] then Enrolment([], None)
    else if steps[0].key !in catalog then Enrolment([], Some(steps[0].key))
    else
      var rest := Enrol(catalog, userId, now, steps[1..]);
      var job := Job(userId, steps[0].key, catalog[steps[0].key], now + steps[0].offset);
      Enrolment([job] + rest.added, rest.missing)
  }

  /**
   * The jobs added are those of the leading steps whose keys are present, in
   * order, each addressed to the user at `now` plus its offset; the run is
   * complete exactly when every key is present, and otherwise names the first
   * missing key.
   */
  lemma {:induction false} EnrolSpec(catalog: map<string, string>, userId: UserId, now: int, steps: seq<DripStep>)
    ensures var e := Enrol(catalog, userId, now, steps);
      && (forall i :: 0 <= i < |e.added| ==>
            steps[i].key in catalog &&
            e.added[i] == Job(userId, steps[i].key, catalog[steps[i].key], now + steps[i].offset))
      && (e.missing.None? ==> |e.added| == |steps|)
      && (e.missing.None? <==> forall i :: 0 <= i < |steps| ==> steps[i].key in catalog)
      && (e.missing.Some? ==>
            |e.added| < |steps| && e.missing.value == steps[|e.added|].key && e.missing.value !in catalog)
  {
    if steps != [] && steps[0].key in catalog {
      EnrolSpec(catalog, userId, now, steps[1..]);
      var e := Enrol(catalog, userId, now, steps);
      var r := Enrol(catalog, userId, now, steps[1..]);
      assert forall i :: 1 <= i < |e.added| ==> e.added[i] == r.added[i - 1] && steps[i] == steps[1..][i - 1];
      if r.missing.None? {
        assert forall i :: 1 <= i < |steps| ==> steps[i] == steps[1..][i - 1];
      }
    }
  }

  /** `Enrol` unfolded once, a proof step for `ChatBot.ScheduleMessages`. */
  lemma EnrolFirstStep(catalog: map<string, string>, userId: UserId, now: int, steps: seq<DripStep>)
    requires steps != []
    ensures var e := Enrol(catalog, userId, now, steps);
      var key := steps[0].key;
      if key in catalog then
        && e.added == [Job(userId, key, catalog[key], now + steps[0].offset)] + Enrol(catalog, userId, now, steps[1..]).added
        && e.missing == Enrol(catalog, userId, now, steps[1..]).missing
      else e == Enrolment([], Some(key))
  {
  }

  /**
   * One `add_job` call for the first step of `steps`, taking the job list
   * from `before` to `after`: either it raised and the run of `steps` stops
   * here, or the rest of the steps add the rest of the run's jobs. A proof
   * step for `ChatBot.ScheduleMessages`.
   */
  lemma EnrolStep(catalog: map<string, string>, userId: UserId, now: int, steps: seq<DripStep>,
                  before: seq<Job>, after: seq<Job>, missing: Option<string>)
    requires steps != []
    requires var key := steps[0].key;
      && (key in catalog ==> missing == None && after == before + [Job(userId, key, catalog[key], now + steps[0].offset)])
      && (key !in catalog ==> missing == Some(key) && after == before)
    ensures missing.Some? ==> after == before && Enrol(catalog, userId, now, steps) == Enrolment([], missing)
    ensures missing.None? ==>
      && after + Enrol(catalog, userId, now, steps[1..]).added == before + Enrol(catalog, userId, now, steps).added
      && Enrol(catalog, userId, now, steps[1..]).missing == Enrol(catalog, userId, now, steps).missing
  {
    EnrolFirstStep(catalog, userId, now, steps);
  }

  /** The run stops exactly at the first step whose key is missing, or runs to the end. */
  lemma EnrolStopsAt(catalog: map<string, string>, userId: UserId, now: int, steps: seq<DripStep>, k: nat)
    requires k <= |steps|
    requires forall i :: 0 <= i < k ==> steps[i].key in catalog
    requires k < |steps| ==> steps[k].key !in catalog
    ensures |Enrol(catalog, userId, now, steps).added| == k
    ensures Enrol(catalog, userId, now, steps).missing == if k < |steps| then Some(steps[k].key) else None
  {
    EnrolSpec(catalog, userId, now, steps);
  }

  /** With every drip key in the catalogue, the batch is exactly the five jobs of app.py:137-175. */
  lemma FullBatch(catalog: map<string, string>, userId: UserId, now: int, o: DripOffsets)
    requires HasDripMessages(catalog)
    ensures var e := Enrol(catalog, userId, now, Campaign(o));
      && e.missing == None
      && e.added == [ Job(userId, "day1_reminder", catalog["day1_reminder"], now + o.day1),
                      Job(userId, "day2_invite", catalog["day2_invite"], now + o.day2),
                      Job(userId, "day2_blessing", catalog["day2_blessing"], now + o.blessing),
                      Job(userId, "day3_teaser", catalog["day3_teaser"], now + o.day3),
                      Job(userId, "rose_path", catalog["rose_path"], now + o.rosePath) ]
  {
    EnrolSpec(catalog, userId, now, Campaign(o));
  }

  /**
   * With ascending offsets, the jobs of one batch fire strictly one after the
   * other and all strictly after the request; this holds also of a batch cut
   * short by a missing key.
   */
  lemma BatchFiresInOrder(catalog: map<string, string>, userId: UserId, now: int, o: DripOffsets)
    requires Ascending(o)
    ensures var jobs := Enrol(catalog, userId, now, Campaign(o)).added;
      && (forall i :: 0 <= i < |jobs| ==> now < jobs[i].runDate)
      && (forall i, j :: 0 <= i < j < |jobs| ==> jobs[i].runDate < jobs[j].runDate)
  {
    var jobs := Enrol(catalog, userId, now, Campaign(o)).added;
    var c := Campaign(o);
    EnrolSpec(catalog, userId, now, c);
    assert forall i, j :: 0 <= i < j < 5 ==> 0 < c[i].offset < c[j].offset;
  }
}
