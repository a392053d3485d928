/** The run gates of `JobProcessor`: a job in `jobs.yaml` is active today
    when its weekday list, its month rule and its day-of-month rule all
    admit today. Today's date is a parameter: its day of the month, its
    month, its weekday as `%w` counts it (Sunday is 0) and the length of
    its month. */
module JobProcessor {
  import opened Wrappers
  import opened PyStrings
  import opened PyJson

  datatype Today = Today(day: int, month: int, weekday: int, daysInMonth: int)
  {
    /** A real calendar day. */
    predicate Valid()
    {
      1 <= month <= 12 && 0 <= weekday <= 6 && 28 <= daysInMonth <= 31 && 1 <= day <= daysInMonth
    }
  }

  /** The job sets the rule `key` to something other than `None` or `''`;
      otherwise the gate is open. `key in job` and `job[key]` follow
      whatever the job value is (a dict, as a rule). */
  function RuleOf(job: Json, key: string): (r: Result<Option<Json>>)
    ensures job.JObj? ==> r.Ok?
    ensures job.JObj? && key !in job.fields ==> r == Ok(None)
    ensures job.JObj? && key in job.fields ==>
      r == Ok(if job.fields[key] == JNull || job.fields[key] == JStr("") then None else Some(job.fields[key]))
  {
    var present :- In(JStr(key), job);
    if !present then Ok(None)
    else
      var v :- Index(job, key);
      Ok(if v == JNull || v == JStr("") then None else Some(v))
  }

  /** `__check_days(job)`: open without `run_days`; otherwise today's
      weekday must be in it. */
  function CheckDays(job: Json, today: Today): (r: Result<bool>)
    ensures RuleOf(job, "run_days") == Ok(None) ==> r == Ok(true)
    ensures RuleOf(job, "run_days").Ok? && RuleOf(job, "run_days").value.Some? ==>
      r == In(JNum(today.weekday), RuleOf(job, "run_days").value.value)
  {
    var rule :- RuleOf(job, "run_days");
    match rule
    case None => Ok(true)
    case Some(days) => In(JNum(today.weekday), days)
  }

  /** `__check_month(job)`: open without `run_on_month`; EVERY, ODD and
      EVEN in any case, any other string never; a list by membership of
      today's month; anything else is a ValueError. */
  function CheckMonth(job: Json, today: Today): (r: Result<bool>)
    ensures RuleOf(job, "run_on_month") == Ok(None) ==> r == Ok(true)
  {
    var rule :- RuleOf(job, "run_on_month");
    match rule
    case None => Ok(true)
    case Some(JStr(s)) =>
      var name := Upper(s);
      Ok(if name == "EVERY" then true
         else if name == "ODD" then today.month % 2 != 0
         else if name == "EVEN" then today.month % 2 == 0
         else false)
    case Some(JList(months)) => In(JNum(today.month), JList(months))
    case Some(_) => Err(ValueError)
  }

  /** A month rule in words: a string selects by name, a list by
      membership, any other value is refused. */
  lemma CheckMonthMeaning(job: Json, today: Today, rule: Json)
    requires RuleOf(job, "run_on_month") == Ok(Some(rule))
    ensures rule.JStr? && Upper(rule.s) == "EVERY" ==> CheckMonth(job, today) == Ok(true)
    ensures rule.JStr? && Upper(rule.s) == "ODD" ==> CheckMonth(job, today) == Ok(today.month % 2 == 1)
    ensures rule.JStr? && Upper(rule.s) == "EVEN" ==> CheckMonth(job, today) == Ok(today.month % 2 == 0)
    ensures rule.JStr? && Upper(rule.s) !in {"EVERY", "ODD", "EVEN"} ==> CheckMonth(job, today) == Ok(false)
    ensures rule.JList? ==>
      CheckMonth(job, today) == Ok(exists i :: 0 <= i < |rule.items| && PyEq(JNum(today.month), rule.items[i]))
    ensures !rule.JStr? && !rule.JList? ==> CheckMonth(job, today) == Err(ValueError)
  {
  }

  /** ODD and EVEN months split the year: exactly one of them admits any
      month. */
  lemma OddEvenMonthsPartition(job: Json, job': Json, today: Today)
    requires RuleOf(job, "run_on_month") == Ok(Some(JStr("odd")))
    requires RuleOf(job', "run_on_month") == Ok(Some(JStr("EVEN")))
    ensures CheckMonth(job, today).Ok? && CheckMonth(job', today).Ok?
    ensures CheckMonth(job, today).value != CheckMonth(job', today).value
  {
    assert Upper("odd") == "ODD" by {
      assert UpperChar('o') == 'O' && UpperChar('d') == 'D';
    }
    assert Upper("EVEN") == "EVEN" by {
      assert UpperChar('E') == 'E' && UpperChar('V') == 'V' && UpperChar('N') == 'N';
    }
  }

  /** The day-of-month rules other than ODD, which both versions of the
      day gate share. */
  function DayRule(name: string, today: Today): bool
  {
    if name == "EVERY" then true
    else if name == "EVEN" then today.day % 2 == 0
    else if name == "LAST" then today.day == today.daysInMonth
    else if name == "FIRST" then today.day == 1
    else if name == "WEEKDAY" then 1 <= today.weekday <= 5
    else if name == "WEEKEND" then today.weekday == 0 || today.weekday == 6
    else false
  }

  /** `__check_day(job)` as written: open without `run_on_day`; the named
      rules in any case, where the ODD branch only ever assigns False; a
      list by membership of today's day; anything else is a ValueError. */
  function CheckDayAsWritten(job: Json, today: Today): (r: Result<bool>)
    ensures RuleOf(job, "run_on_day") == Ok(None) ==> r == Ok(true)
  {
    var rule :- RuleOf(job, "run_on_day");
    match rule
    case None => Ok(true)
    case Some(JStr(s)) => Ok(if Upper(s) == "ODD" then false else DayRule(Upper(s), today))
    case Some(JList(days)) => In(JNum(today.day), JList(days))
    case Some(_) => Err(ValueError)
  }

  /** As written, a job whose day rule is ODD never runs, on any day. */
  lemma OddDayNeverRuns(job: Json, today: Today)
    requires RuleOf(job, "run_on_day").Ok? && RuleOf(job, "run_on_day").value.Some?
    requires RuleOf(job, "run_on_day").value.value.JStr? && Upper(RuleOf(job, "run_on_day").value.value.s) == "ODD"
    ensures CheckDayAsWritten(job, today) == Ok(false)
  {
  }

  /** The day gate as documented: ODD admits the odd days of the month. */
  function CheckDay(job: Json, today: Today): (r: Result<bool>)
    ensures RuleOf(job, "run_on_day") == Ok(None) ==> r == Ok(true)
  {
    var rule :- RuleOf(job, "run_on_day");
    match rule
    case None => Ok(true)
    case Some(JStr(s)) => Ok(if Upper(s) == "ODD" then today.day % 2 != 0 else DayRule(Upper(s), today))
    case Some(JList(days)) => In(JNum(today.day), JList(days))
    case Some(_) => Err(ValueError)
  }

  /** The corrected gate differs from the written one only on ODD days of
      ODD rules: there it admits the job. */
  lemma CheckDayFixesOdd(job: Json, today: Today)
    ensures CheckDay(job, today) != CheckDayAsWritten(job, today) <==>
      && RuleOf(job, "run_on_day").Ok? && RuleOf(job, "run_on_day").value.Some?
      && RuleOf(job, "run_on_day").value.value.JStr? && Upper(RuleOf(job, "run_on_day").value.value.s) == "ODD"
      && today.day % 2 != 0
    ensures CheckDay(job, today) != CheckDayAsWritten(job, today) ==> CheckDay(job, today) == Ok(true)
  {
  }

  /** The named day rules in words, for a valid date. */
  lemma DayRuleMeaning(today: Today)
    requires today.Valid()
    ensures DayRule("FIRST", today) <==> today.day == 1
    ensures DayRule("LAST", today) <==> today.day == today.daysInMonth
    ensures DayRule("WEEKDAY", today) <==> today.weekday !in {0, 6}
    ensures DayRule("WEEKEND", today) <==> !DayRule("WEEKDAY", today)
    ensures DayRule("EVERY", today)
    ensures DayRule("EVEN", today) <==> today.day % 2 == 0
    ensures DayRule("ODD", today) == false
    ensures forall name :: name !in {"EVERY", "EVEN", "LAST", "FIRST", "WEEKDAY", "WEEKEND"} ==> !DayRule(name, today)
  {
  }

  /** The corrected day rule in words: a string selects by name, with ODD
      admitting the odd days, a list by membership of today's day, any
      other value is refused. */
  lemma CheckDayMeaning(job: Json, today: Today, rule: Json)
    requires RuleOf(job, "run_on_day") == Ok(Some(rule))
    ensures rule.JStr? && Upper(rule.s) == "ODD" ==> CheckDay(job, today) == Ok(today.day % 2 != 0)
    ensures rule.JStr? && Upper(rule.s) != "ODD" ==> CheckDay(job, today) == Ok(DayRule(Upper(rule.s), today))
    ensures rule.JList? ==>
      CheckDay(job, today) == Ok(exists i :: 0 <= i < |rule.items| && PyEq(JNum(today.day), rule.items[i]))
    ensures !rule.JStr? && !rule.JList? ==> CheckDay(job, today) == Err(ValueError)
  {
  }

  /** Whether a job runs today: the three gates in turn, each consulted
      only when the ones before it admitted the job. */
  function Gate(job: Json, today: Today): (r: Result<bool>)
    ensures r == Ok(true) ==> CheckDays(job, today) == Ok(true) && CheckMonth(job, today) == Ok(true) &&
                              CheckDay(job, today) == Ok(true)
    ensures CheckDays(job, today) == Ok(false) ==> r == Ok(false)
  {
    var days :- CheckDays(job, today);
    if !days then Ok(false)
    else
      var month :- CheckMonth(job, today);
      if !month then Ok(false)
      else CheckDay(job, today)
  }

  /** The jobs that run today, in order; the first gate that raises ends
      the selection. */
  function Passing(jobs: seq<Json>, today: Today): (r: Result<seq<Json>>)
    ensures r.Ok? ==> |r.value| <= |jobs|
    decreases |jobs|
  {
    if jobs == [] then Ok([])
    else
      var run :- Gate(jobs[0], today);
      var rest :- Passing(jobs[1..], today);
      Ok(if run then [jobs[0]] + rest else rest)
  }

  /** The selected jobs are exactly those every gate admits, in their
      order in the configuration. */
  lemma {:induction false} PassingMeaning(jobs: seq<Json>, today: Today)
    requires Passing(jobs, today).Ok?
    ensures forall i :: 0 <= i < |jobs| ==> Gate(jobs[i], today).Ok?
    ensures Passing(jobs, today).value == Kept(jobs, today)
    decreases |jobs|
  {
    if jobs != [] {
      PassingMeaning(jobs[1..], today);
      forall i | 0 <= i < |jobs| ensures Gate(jobs[i], today).Ok? {
        if i > 0 {
          assert jobs[i] == jobs[1..][i - 1];
        }
      }
    }
  }

  /** The jobs whose gate admits them, in order (gates assumed not to
      raise). */
  ghost function Kept(jobs: seq<Json>, today: Today): (r: seq<Json>)
    ensures forall x :: x in r ==> x in jobs && Gate(x, today) == Ok(true)
    ensures forall i :: 0 <= i < |jobs| && Gate(jobs[i], today) == Ok(true) ==> jobs[i] in r
    decreases |jobs|
  {
    if jobs == [] then []
    else
      var rest := Kept(jobs[1..], today);
      assert forall i :: 1 <= i < |jobs| ==> jobs[i] == jobs[1..][i - 1];
      if Gate(jobs[0], today) == Ok(true) then [jobs[0]] + rest else rest
  }

  /** One step of `Passing` from position `i`. */
  lemma PassingUnfold(jobs: seq<Json>, i: nat, today: Today)
    requires i < |jobs|
    ensures Gate(jobs[i], today).Err? ==> Passing(jobs[i..], today) == Err(Gate(jobs[i], today).error)
    ensures Gate(jobs[i], today).Ok? ==>
      Passing(jobs[i..], today) == (var rest := Passing(jobs[i + 1..], today);
                                    if rest.Err? then rest
                                    else Ok(if Gate(jobs[i], today).value then [jobs[i]] + rest.value else rest.value))
  {
    assert jobs[i..][0] == jobs[i] && jobs[i..][1..] == jobs[i + 1..];
  }

  /** The job scheduler, holding the jobs found active when it was built. */
  class Scheduler {
    var activeJobs: seq<Json>

    constructor ()
      ensures activeJobs == []
    {
      activeJobs := [];
    }

    /** `check_days(j) and check_month(j) and check_day(j)`, evaluated
        from the left and stopping at the first gate that closes. */
    static method Runs(job: Json, today: Today) returns (r: Result<bool>)
      ensures r == Gate(job, today)
    {
      r := CheckDays(job, today);
      if r == Ok(true) {
        r := CheckMonth(job, today);
        if r == Ok(true) {
          r := CheckDay(job, today);
        }
      }
    }

    /** The selection loop of `JobProcessor.__init__` over the loaded
        `jobs.yaml` document. */
    method SelectActive(processed: Json, today: Today) returns (r: Result<Unit>)
      modifies this
      ensures var jobs := Index(processed, "jobs");
        var listed := if jobs.Ok? then Iterated(jobs.value) else Err(jobs.error);
        var chosen := if listed.Ok? then Passing(listed.value, today) else Err(listed.error);
        && (chosen.Ok? ==> r == Ok(Unit) && activeJobs == old(activeJobs) + chosen.value)
        && (chosen.Err? ==> r == Err(chosen.error))
    {
      var jobsValue :- Index(processed, "jobs");
      var jobs :- Iterated(jobsValue);
      ghost var a0, chosen := activeJobs, [];
      var i := 0;
      assert jobs[0..] == jobs;
      assert Passing(jobs, today).Ok? ==> chosen + Passing(jobs, today).value == Passing(jobs, today).value;
      while i < |jobs|
        invariant 0 <= i <= |jobs| && activeJobs == a0 + chosen
        invariant Passing(jobs, today) == (var rest := Passing(jobs[i..], today);
                                           if rest.Ok? then Ok(chosen + rest.value) else rest)
      {
        PassingUnfold(jobs, i, today);
        ghost var done := chosen;
        var run := Runs(jobs[i], today);
        if run.Err? {
          return Err(run.error);
        }
        ghost var rest := Passing(jobs[i + 1..], today);
        if run.value {
          activeJobs := activeJobs + [jobs[i]];
          chosen := chosen + [jobs[i]];
          assert rest.Ok? ==> chosen + rest.value == done + ([jobs[i]] + rest.value);
        }
        i := i + 1;
      }
      assert jobs[i..] == [];
      return Ok(Unit);
    }
  }
}
