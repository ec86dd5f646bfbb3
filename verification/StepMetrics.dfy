/** The per-step records of the granular metrics (utils/pod/util.go). Times are not modelled. */
module StepMetrics {
  import opened PodTypes

  datatype StepStatus = StepStarting | StepSuccess | StepError

  datatype StepData = StepData(retryId: nat, stepName: string, status: StepStatus, tag: Option<HealthStatus>,
                               failed: bool)

  type Steps = map<string, seq<StepData>>

  const HEALTH_CHECK := "HealthCheck-"

  predicate HealthKey(name: string) {
    HEALTH_CHECK <= name
  }

  function StepsOf(data: Steps, name: string): seq<StepData> {
    if name in data then data[name] else []
  }

  function Started(data: Steps, name: string): Steps {
    data[name := StepsOf(data, name) + [StepData(|StepsOf(data, name)|, name, StepStarting, None, false)]]
  }

  /** A step ends well unless there was an error or its health tag says anything but "healthy". */
  function EndStatus(tag: Option<HealthStatus>, failed: bool): StepStatus {
    if failed || (tag.Some? && tag != Some(Healthy)) then StepError else StepSuccess
  }

  function EndedLast(steps: seq<StepData>, tag: Option<HealthStatus>, failed: bool): seq<StepData>
    requires steps != []
  {
    var n := |steps| - 1;
    steps[n := steps[n].(status := EndStatus(tag, failed), tag := tag, failed := failed)]
  }

  function Ended(data: Steps, name: string, tag: Option<HealthStatus>, failed: bool): Steps {
    if name == "" || StepsOf(data, name) == [] then data
    else data[name := EndedLast(data[name], tag, failed)]
  }

  function Marked(name: string, steps: seq<StepData>): seq<StepData> {
    if HealthKey(name) && steps != [] && steps[|steps| - 1].status == StepStarting
    then steps[|steps| - 1 := steps[|steps| - 1].(status := StepError)]
    else steps
  }

  function AllMarked(data: Steps): Steps {
    map name | name in data :: Marked(name, data[name])
  }

  class Metrics {
    var data: Steps

    constructor ()
      ensures data == map[]
    {
      data := map[];
    }

    method StartStep(name: string)
      modifies this
      ensures data == Started(old(data), name)
      ensures var before := if name in old(data) then old(data)[name] else [];
              data == old(data)[name := before + [StepData(|before|, name, StepStarting, None, false)]]
    {
      var stepValues := [];
      if name in data {
        stepValues := data[name];
      } else {
        data := data[name := stepValues];
      }
      var stepValue := StepData(|stepValues|, name, StepStarting, None, false);
      data := data[name := stepValues + [stepValue]];
    }

    method EndStep(name: string, tag: Option<HealthStatus>, failed: bool)
      modifies this
      ensures data == Ended(old(data), name, tag, failed)
    {
      if name == "" || name !in data || |data[name]| < 1 {
        return;
      }
      var steps := data[name];
      var step := steps[|steps| - 1];
      step := step.(tag := tag, failed := failed);
      if failed {
        step := step.(status := StepError);
      } else if tag.Some? && tag.value != Healthy {
        step := step.(status := StepError);
      } else {
        step := step.(status := StepSuccess);
      }
      data := data[name := steps[|steps| - 1 := step]];
    }

    /** Health check steps that are still open end as errors; the map may be walked in any order. */
    method UpdateHealthCheckStatus()
      modifies this
      ensures data == AllMarked(old(data))
      ensures forall name :: name in data <==> name in old(data)
      ensures forall name :: name in data
                             ==> var before, n := old(data)[name], |old(data)[name]| - 1;
                                 data[name] == if "HealthCheck-" <= name && n >= 0 && before[n].status == StepStarting
                                               then before[n := before[n].(status := StepError)] else before
    {
      var todo := data.Keys;
      while todo != {}
        invariant todo <= data.Keys && data.Keys == old(data.Keys)
        invariant forall name :: name in data
                                 ==> data[name] == if name in todo then old(data)[name]
                                                   else Marked(name, old(data)[name])
      {
        var name :| name in todo;
        var steps := data[name];
        if HealthKey(name) && |steps| > 0 && steps[|steps| - 1].status == StepStarting {
          data := data[name := steps[|steps| - 1 := steps[|steps| - 1].(status := StepError)]];
        }
        todo := todo - {name};
      }
    }
  }

  // ---------------------------------------------------------------- what the records keep

  /** Entry `k` of every list is retry `k` of that step. */
  ghost predicate RetryIds(data: Steps) {
    forall name, k :: name in data && 0 <= k < |data[name]|
                      ==> data[name][k].retryId == k && data[name][k].stepName == name
  }

  lemma {:induction false} RetryIdsKept(data: Steps, name: string, tag: Option<HealthStatus>, failed: bool)
    requires RetryIds(data)
    ensures RetryIds(Started(data, name)) && RetryIds(Ended(data, name, tag, failed))
  {}

  lemma {:induction false} RetryIdsMarked(data: Steps)
    requires RetryIds(data)
    ensures RetryIds(AllMarked(data))
  {}

  ghost predicate Open(steps: seq<StepData>) {
    exists k :: 0 <= k < |steps| && steps[k].status == StepStarting
  }

  /** No health check step is left without an outcome. */
  ghost predicate NoneOpen(data: Steps) {
    forall name :: name in data && HealthKey(name) ==> !Open(data[name])
  }

  /** Of a health check's retries only the latest can be without an outcome. */
  ghost predicate OnlyLastOpen(data: Steps) {
    forall name, k :: name in data && HealthKey(name) && 0 <= k < |data[name]| - 1
                      ==> data[name][k].status != StepStarting
  }

  lemma {:induction false} EndCloses(data: Steps, name: string, tag: Option<HealthStatus>, failed: bool)
    requires OnlyLastOpen(data) && HealthKey(name) && StepsOf(data, name) != []
    ensures var data' := Ended(data, name, tag, failed);
            OnlyLastOpen(data') && !Open(data'[name]) && data'.Keys == data.Keys
            && forall k :: k in data && k != name ==> data'[k] == data[k]
  {
    assert name != "";
  }

  /** What ending a step records: in its latest entry the outcome, good only without an error and without a
      health tag other than healthy; nothing in the earlier ones. */
  lemma {:induction false} EndRecords(data: Steps, name: string, tag: Option<HealthStatus>, failed: bool)
    requires name != "" && StepsOf(data, name) != []
    ensures var before, after := data[name], Ended(data, name, tag, failed)[name];
            var n := |before| - 1;
            && |after| == |before| && after[..n] == before[..n]
            && after[n].retryId == before[n].retryId && after[n].stepName == before[n].stepName
            && after[n].status != StepStarting
            && after[n].tag == tag && after[n].failed == failed
            && (after[n].status == StepSuccess <==> !failed && (tag == None || tag == Some(Healthy)))
    ensures forall k :: k in data && k != name ==> k in Ended(data, name, tag, failed)
                                                   && Ended(data, name, tag, failed)[k] == data[k]
  {}

  /** A step without a name or without a record is not ended. */
  lemma {:induction false} NoRecordNoEnd(data: Steps, name: string, tag: Option<HealthStatus>, failed: bool)
    requires name == "" || name !in data || data[name] == []
    ensures Ended(data, name, tag, failed) == data
  {}

  lemma {:induction false} StartOpens(data: Steps, name: string)
    requires OnlyLastOpen(data) && !Open(StepsOf(data, name))
    ensures var data' := Started(data, name);
            OnlyLastOpen(data') && StepsOf(data', name) != []
            && forall k :: k in data && k != name ==> data'[k] == data[k]
  {}

  /** Marking closes whatever is open, and changes nothing when nothing is. */
  lemma {:induction false} MarkedCloses(data: Steps)
    requires OnlyLastOpen(data)
    ensures NoneOpen(AllMarked(data))
    ensures NoneOpen(data) ==> AllMarked(data) == data
  {}
}
