/** The random events that may interrupt the scenario between two steps: a
    catalogue of crises, opportunities and neutral events, each with its own
    probability and window of steps, and the draw that picks at most one of them. */
module RandomEvents {
  import opened Common
  import opened Reputation

  datatype EventType = Crisis | Opportunity | Neutral

  /** One answer to an event and its effect on the indicators and on the stakeholders. */
  datatype RandomEventChoice = RandomEventChoice(
    id: string, budgetImpact: int, scoreNIRDImpact: int, dependanceImpact: int,
    reputationImpact: ReputationImpact)

  datatype RandomEvent = RandomEvent(
    id: string, eventType: EventType, probability: real, minStep: int, maxStep: int,
    choices: seq<RandomEventChoice>)

  predicate InWindow(e: RandomEvent, step: int)
  {
    e.minStep <= step <= e.maxStep
  }

  /** An event that passes the first three tests of the filter: its window and not yet triggered. */
  predicate IsCandidate(e: RandomEvent, step: int, triggered: seq<string>)
  {
    InWindow(e, step) && e.id !in triggered
  }

  /** The events the filter rolls for, in catalogue order. */
  function Candidates(events: seq<RandomEvent>, step: int, triggered: seq<string>): (cs: seq<RandomEvent>)
    ensures |cs| <= |events|
    ensures forall e :: e in cs <==> e in events && IsCandidate(e, step, triggered)
  {
    if events == [] then []
    else if IsCandidate(events[0], step, triggered) then [events[0]] + Candidates(events[1..], step, triggered)
    else Candidates(events[1..], step, triggered)
  }

  /** The filter of the draw. `Math.random()` is called only for an event that passed
      the first three tests (the conjunction stops early), so the candidates consume
      the rolls one each, in order: an event is kept when its own roll is below its
      own probability. */
  function Eligible(events: seq<RandomEvent>, step: int, triggered: seq<string>, rolls: seq<real>): (es: seq<RandomEvent>)
    requires |rolls| >= |Candidates(events, step, triggered)|
    ensures forall e :: e in es ==> e in events && IsCandidate(e, step, triggered)
  {
    if events == [] then []
    else
      var e := events[0];
      if IsCandidate(e, step, triggered) then
        (if rolls[0] < e.probability then [e] else []) + Eligible(events[1..], step, triggered, rolls[1..])
      else Eligible(events[1..], step, triggered, rolls)
  }

  /** Reference definition: the candidates whose roll (by position) is below their probability. */
  function Roll(cs: seq<RandomEvent>, rolls: seq<real>): (kept: seq<RandomEvent>)
    requires |rolls| >= |cs|
  {
    if cs == [] then []
    else (if rolls[0] < cs[0].probability then [cs[0]] else []) + Roll(cs[1..], rolls[1..])
  }

  /** The single-pass filter is the roll of the candidates: each candidate is tested
      against its own probability, with its own roll, and nothing is normalised. */
  lemma {:induction false} EligibleIsRollOfCandidates(events: seq<RandomEvent>, step: int, triggered: seq<string>, rolls: seq<real>)
    requires |rolls| >= |Candidates(events, step, triggered)|
    ensures Eligible(events, step, triggered, rolls) == Roll(Candidates(events, step, triggered), rolls)
  {
    if events != [] {
      var cs := Candidates(events, step, triggered);
      if IsCandidate(events[0], step, triggered) {
        EligibleIsRollOfCandidates(events[1..], step, triggered, rolls[1..]);
        assert cs[1..] == Candidates(events[1..], step, triggered);
      } else {
        EligibleIsRollOfCandidates(events[1..], step, triggered, rolls);
      }
    }
  }

  /** Nothing is kept exactly when every candidate's roll reaches its probability. */
  lemma {:induction false} RollEmptyIff(cs: seq<RandomEvent>, rolls: seq<real>)
    requires |rolls| >= |cs|
    ensures Roll(cs, rolls) == [] <==> forall i :: 0 <= i < |cs| ==> rolls[i] >= cs[i].probability
  {
    if cs != [] {
      RollEmptyIff(cs[1..], rolls[1..]);
      if Roll(cs, rolls) == [] {
        forall i | 0 <= i < |cs| ensures rolls[i] >= cs[i].probability {
          if i > 0 {
            assert rolls[i] == rolls[1..][i - 1] && cs[i] == cs[1..][i - 1];
          }
        }
      }
      if forall i :: 0 <= i < |cs| ==> rolls[i] >= cs[i].probability {
        forall i | 0 <= i < |cs[1..]| ensures rolls[1..][i] >= cs[1..][i].probability {
          assert rolls[1..][i] == rolls[i + 1] && cs[1..][i] == cs[i + 1];
        }
      }
    }
  }

  /** A candidate whose roll is not below its probability is never kept (the
      candidates being distinct, it cannot come back through another position). */
  lemma {:induction false} RollExcludes(cs: seq<RandomEvent>, rolls: seq<real>, i: nat)
    requires |rolls| >= |cs| && NoDup(cs)
    requires i < |cs| && rolls[i] >= cs[i].probability
    ensures cs[i] !in Roll(cs, rolls)
  {
    var rest := Roll(cs[1..], rolls[1..]);
    assert NoDup(cs[1..]) by {
      forall a, b | 0 <= a < b < |cs[1..]| ensures cs[1..][a] != cs[1..][b] {
        assert cs[1..][a] == cs[a + 1] && cs[1..][b] == cs[b + 1];
      }
    }
    if i == 0 {
      RollMembers(cs[1..], rolls[1..]);
      forall k | 0 <= k < |cs[1..]| ensures cs[1..][k] != cs[0] {
        assert cs[1..][k] == cs[k + 1];
      }
    } else {
      assert cs[1..][i - 1] == cs[i] && rolls[1..][i - 1] == rolls[i];
      RollExcludes(cs[1..], rolls[1..], i - 1);
      assert cs[0] != cs[i];
    }
  }

  /** Everything kept is a candidate. */
  lemma {:induction false} RollMembers(cs: seq<RandomEvent>, rolls: seq<real>)
    requires |rolls| >= |cs|
    ensures forall e :: e in Roll(cs, rolls) ==> e in cs
  {
    if cs != [] {
      RollMembers(cs[1..], rolls[1..]);
    }
  }

  /** Dropping the first element of a subsequence keeps a subsequence. */
  lemma {:induction false} SubsequenceTail<T>(a: seq<T>, b: seq<T>)
    requires a != [] && IsSubsequence(a, b)
    ensures IsSubsequence(a[1..], b)
    decreases |b|, 1
  {
    assert [b[0]] + b[1..] == b;
    if a[0] != b[0] {
      SubsequenceTail(a, b[1..]);
    }
    SubsequenceCons(a[1..], b[0], b[1..]);
  }

  /** A subsequence of the rest of a list is a subsequence of the list. */
  lemma {:induction false} SubsequenceCons<T>(a: seq<T>, x: T, b: seq<T>)
    requires IsSubsequence(a, b)
    ensures IsSubsequence(a, [x] + b)
    decreases |b| + 1, 0
  {
    assert ([x] + b)[1..] == b;
    if a != [] && a[0] == x {
      SubsequenceTail(a, b);
    }
  }

  /** The filtered list keeps catalogue order: it is a subsequence of the events. */
  lemma {:induction false} EligibleSubsequence(events: seq<RandomEvent>, step: int, triggered: seq<string>, rolls: seq<real>)
    requires |rolls| >= |Candidates(events, step, triggered)|
    ensures IsSubsequence(Eligible(events, step, triggered, rolls), events)
  {
    if events != [] {
      var es := Eligible(events, step, triggered, rolls);
      var e := events[0];
      assert [e] + events[1..] == events;
      if IsCandidate(e, step, triggered) {
        var rest := Eligible(events[1..], step, triggered, rolls[1..]);
        EligibleSubsequence(events[1..], step, triggered, rolls[1..]);
        if rolls[0] < e.probability {
          assert es[1..] == rest;
        } else {
          assert es == rest;
          SubsequenceCons(rest, e, events[1..]);
        }
      } else {
        EligibleSubsequence(events[1..], step, triggered, rolls);
        SubsequenceCons(es, e, events[1..]);
      }
    }
  }

  /** The candidates keep catalogue order too, so distinct events give distinct candidates. */
  lemma {:induction false} CandidatesSubsequence(events: seq<RandomEvent>, step: int, triggered: seq<string>)
    ensures IsSubsequence(Candidates(events, step, triggered), events)
  {
    if events != [] {
      var cs := Candidates(events, step, triggered);
      CandidatesSubsequence(events[1..], step, triggered);
      assert [events[0]] + events[1..] == events;
      if IsCandidate(events[0], step, triggered) {
        assert cs[1..] == Candidates(events[1..], step, triggered);
      } else {
        SubsequenceCons(cs, events[0], events[1..]);
      }
    }
  }

  /** `Math.floor(r * len)` for r in [0, 1): an index of a list of length len. */
  function PickIndex(r: real, len: int): (i: int)
    requires 0.0 <= r < 1.0 && len > 0
    ensures 0 <= i < len
    ensures i as real <= r * len as real < i as real + 1.0
  {
    assert r * len as real < len as real;
    (r * len as real).Floor
  }

  /** `getRandomEvent`: the events of the catalogue `events` that pass the filter, and
      one of them picked by the draw `pick`, or nothing when none passes. */
  function GetRandomEvent(events: seq<RandomEvent>, currentStep: int, triggered: seq<string>, rolls: seq<real>, pick: real): (r: Option<RandomEvent>)
    requires |rolls| >= |Candidates(events, currentStep, triggered)|
    requires 0.0 <= pick < 1.0
    ensures r.Some? ==> r.value in events && InWindow(r.value, currentStep) && r.value.id !in triggered
    ensures r.None? <==> forall i :: 0 <= i < |Candidates(events, currentStep, triggered)| ==>
      rolls[i] >= Candidates(events, currentStep, triggered)[i].probability
    ensures r.Some? ==> exists i :: (0 <= i < |Candidates(events, currentStep, triggered)| &&
      Candidates(events, currentStep, triggered)[i] == r.value && rolls[i] < r.value.probability)
  {
    var eligible := Eligible(events, currentStep, triggered, rolls);
    EligibleIsRollOfCandidates(events, currentStep, triggered, rolls);
    RollEmptyIff(Candidates(events, currentStep, triggered), rolls);
    if |eligible| == 0 then None
    else
      var e := eligible[PickIndex(pick, |eligible|)];
      RollPassed(Candidates(events, currentStep, triggered), rolls, e);
      Some(e)
  }

  /** Whatever is kept passed its own roll at some position. */
  lemma {:induction false} RollPassed(cs: seq<RandomEvent>, rolls: seq<real>, e: RandomEvent)
    requires |rolls| >= |cs| && e in Roll(cs, rolls)
    ensures exists i :: 0 <= i < |cs| && cs[i] == e && rolls[i] < e.probability
  {
    if rolls[0] < cs[0].probability && e == cs[0] {
      assert cs[0] == e;
    } else {
      RollPassed(cs[1..], rolls[1..], e);
      var i :| 0 <= i < |cs[1..]| && cs[1..][i] == e && rolls[1..][i] < e.probability;
      assert cs[i + 1] == e && rolls[i + 1] < e.probability;
    }
  }

  /** An event whose roll reaches its probability is never drawn (in a catalogue without repeated events). */
  lemma FailedRollNeverDrawn(events: seq<RandomEvent>, currentStep: int, triggered: seq<string>, rolls: seq<real>, pick: real, i: nat)
    requires |rolls| >= |Candidates(events, currentStep, triggered)|
    requires 0.0 <= pick < 1.0 && NoDup(events)
    requires i < |Candidates(events, currentStep, triggered)|
    requires rolls[i] >= Candidates(events, currentStep, triggered)[i].probability
    ensures GetRandomEvent(events, currentStep, triggered, rolls, pick) != Some(Candidates(events, currentStep, triggered)[i])
  {
    var cs := Candidates(events, currentStep, triggered);
    CandidatesSubsequence(events, currentStep, triggered);
    SubsequenceNoDup(cs, events);
    RollExcludes(cs, rolls, i);
    EligibleIsRollOfCandidates(events, currentStep, triggered, rolls);
  }

  /** When an event is drawn, it is the filtered list's element at `floor(pick * length)`. */
  lemma DrawIsPickedElement(events: seq<RandomEvent>, currentStep: int, triggered: seq<string>, rolls: seq<real>, pick: real)
    requires |rolls| >= |Candidates(events, currentStep, triggered)|
    requires 0.0 <= pick < 1.0
    ensures var eligible := Eligible(events, currentStep, triggered, rolls);
      eligible != [] ==> GetRandomEvent(events, currentStep, triggered, rolls, pick) == Some(eligible[PickIndex(pick, |eligible|)])
  {
  }

  const RANDOM_EVENTS: seq<RandomEvent> := [
    RandomEvent("cyberattack", Crisis, 0.15, 3, 9, [
        RandomEventChoice("pay", -8000, -15, 20, map[Parents := -15, Academie := -20]),
        RandomEventChoice("restore", -2000, 10, -10, map[Enseignants := 10, Academie := 15]),
        RandomEventChoice("expert", -5000, 5, 5, map[Parents := 5, Academie := 10])]),
    RandomEvent("hardware_failure", Crisis, 0.12, 2, 8, [
        RandomEventChoice("emergency_buy", -6000, -5, 15, map[Eleves := -5, Enseignants := -10]),
        RandomEventChoice("cloud_temp", -1500, -10, 25, map[Eleves := 5, Enseignants := 5]),
        RandomEventChoice("repair", -500, 15, -5, map[Enseignants := -5, Academie := 5])]),
    RandomEvent("inspection", Crisis, 0.1, 6, 10, [
        RandomEventChoice("full_coop", -500, 10, 0, map[Parents := 15, Academie := 20]),
        RandomEventChoice("minimal", 0, -5, 0, map[Parents := -5, Academie := -10]),
        RandomEventChoice("consultant", -2000, 15, 5, map[Parents := 10, Academie := 15])]),
    RandomEvent("grant", Opportunity, 0.18, 2, 8, [
        RandomEventChoice("apply_full", 12000, 15, -10, map[Enseignants := 10, Academie := 15, Parents := 5]),
        RandomEventChoice("apply_simple", 5000, 5, 0, map[Academie := 5]),
        RandomEventChoice("skip", 0, 0, 0, map[Enseignants := -5, Academie := -5])]),
    RandomEvent("donation", Opportunity, 0.15, 1, 7, [
        RandomEventChoice("accept_all", 3000, 10, 10, map[Eleves := 10, Parents := 5]),
        RandomEventChoice("select", 2000, 15, 0, map[Eleves := 5, Enseignants := 10]),
        RandomEventChoice("refuse", 0, 5, -5, map[Parents := -5])]),
    RandomEvent("student_project", Opportunity, 0.12, 4, 9, [
        RandomEventChoice("support", -1000, 20, -15, map[Eleves := 25, Enseignants := 15, Academie := 10]),
        RandomEventChoice("partial", 0, 10, -5, map[Eleves := 10, Enseignants := 5]),
        RandomEventChoice("outsource", -3000, -5, 15, map[Eleves := -15, Enseignants := -5])]),
    RandomEvent("media_visit", Neutral, 0.1, 5, 10, [
        RandomEventChoice("full_access", 0, 10, 0, map[Parents := 15, Academie := 10, Eleves := 5]),
        RandomEventChoice("guided", 0, 0, 0, map[Parents := 5, Academie := 5]),
        RandomEventChoice("decline", 0, -5, 0, map[Parents := -10, Academie := -5])]),
    RandomEvent("tech_update", Neutral, 0.15, 2, 9, [
        RandomEventChoice("immediate", -200, 10, 0, map[Enseignants := -5, Academie := 10]),
        RandomEventChoice("scheduled", -500, 5, 0, map[Enseignants := 5, Academie := 5]),
        RandomEventChoice("delay", 0, -10, 5, map[Academie := -10])]),
    RandomEvent("training_opportunity", Opportunity, 0.2, 3, 8, [
        RandomEventChoice("send_many", -500, 15, -10, map[Enseignants := 20, Academie := 15]),
        RandomEventChoice("send_few", 0, 8, -5, map[Enseignants := 10, Academie := 5]),
        RandomEventChoice("skip_training", 0, -5, 0, map[Enseignants := -10, Academie := -10])]),
    RandomEvent("retro_gaming_challenge", Opportunity, 0.18, 3, 9, [
        RandomEventChoice("full_event", -1500, 25, -15, map[Eleves := 30, Enseignants := 15, Parents := 10, Academie := 5]),
        RandomEventChoice("educational_focus", -500, 20, -10, map[Eleves := 15, Enseignants := 20, Academie := 15]),
        RandomEventChoice("minimal_setup", -200, 10, -5, map[Eleves := 10, Enseignants := 5]),
        RandomEventChoice("refuse_retro", 0, -5, 5, map[Eleves := -10, Enseignants := -5])]),
    RandomEvent("linux_classroom", Opportunity, 0.16, 2, 8, [
        RandomEventChoice("full_migration", -1000, 35, -40, map[Eleves := 20, Enseignants := 25, Academie := 15]),
        RandomEventChoice("dual_boot", -300, 20, -15, map[Enseignants := 10, Eleves := 10]),
        RandomEventChoice("skip_linux", 0, -10, 20, map[Enseignants := -5, Academie := -5])]),
    RandomEvent("commons_forge", Opportunity, 0.14, 4, 9, [
        RandomEventChoice("lead_forge", -2000, 40, -30, map[Enseignants := 30, Academie := 35, Eleves := 10]),
        RandomEventChoice("join_forge", -500, 25, -15, map[Enseignants := 15, Academie := 15]),
        RandomEventChoice("skip_forge", 0, -5, 5, map[Enseignants := -10, Academie := -15])]),
    RandomEvent("accessibility_audit", Crisis, 0.13, 5, 10, [
        RandomEventChoice("full_audit", -5000, 30, 0, map[Parents := 25, Eleves := 15, Academie := 20]),
        RandomEventChoice("basic_fixes", -1500, 15, 0, map[Parents := 10, Eleves := 10]),
        RandomEventChoice("ignore_accessibility", 0, -20, 0, map[Parents := -20, Eleves := -15, Academie := -20])]),
    RandomEvent("snt_opensource_project", Opportunity, 0.15, 5, 10, [
        RandomEventChoice("full_support", -3500, 45, -40, map[Eleves := 40, Enseignants := 25, Academie := 30]),
        RandomEventChoice("minimal_support", -500, 25, -20, map[Eleves := 20, Enseignants := 10]),
        RandomEventChoice("reject_project", 0, -15, 15, map[Eleves := -25, Enseignants := -10])]),
    RandomEvent("data_sovereignty", Crisis, 0.12, 6, 10, [
        RandomEventChoice("nextcloud_infra", -4000, 40, -50, map[Parents := 30, Academie := 35, Eleves := 10]),
        RandomEventChoice("owncloud_hybrid", -2000, 25, -25, map[Parents := 15, Academie := 15]),
        RandomEventChoice("keep_gafam", 0, -20, 30, map[Parents := -20, Academie := -15])]),
    RandomEvent("e_waste_program", Opportunity, 0.13, 3, 9, [
        RandomEventChoice("repair_reuse", -1000, 35, -20, map[Eleves := 25, Enseignants := 15, Academie := 15]),
        RandomEventChoice("responsible_export", -800, 25, -15, map[Parents := 20, Academie := 20, Eleves := 10]),
        RandomEventChoice("normal_recycling", -500, 10, 0, map[])])
  ]

  /** The catalogue has sixteen events with distinct ids. */
  lemma CatalogIdsUnique()
    ensures |RANDOM_EVENTS| == 16
    ensures forall i, j :: 0 <= i < j < |RANDOM_EVENTS| ==> RANDOM_EVENTS[i].id != RANDOM_EVENTS[j].id
    ensures NoDup(RANDOM_EVENTS)
  {
  }

  /** Every event has a probability in (0, 1], a window inside the steps 1 to 10, and three or four answers. */
  lemma CatalogWellFormed(i: nat)
    requires i < |RANDOM_EVENTS|
    ensures 0.0 < RANDOM_EVENTS[i].probability <= 1.0
    ensures 1 <= RANDOM_EVENTS[i].minStep <= RANDOM_EVENTS[i].maxStep <= 10
    ensures 3 <= |RANDOM_EVENTS[i].choices| <= 4
  {
    assert i in {0, 1, 2, 3, 4, 5, 6, 7, 8, 9, 10, 11, 12, 13, 14, 15};
  }

  /** The colour shown for each kind of event (a CSS gradient). */
  function GetEventTypeColor(t: EventType): (c: string)
    ensures |c| > 0
  {
    match t
    case Crisis => "from-red-500 to-red-700"
    case Opportunity => "from-green-500 to-green-700"
    case Neutral => "from-blue-500 to-blue-700"
  }

  /** The label shown for each kind of event. */
  function GetEventTypeLabel(t: EventType): (l: string)
    ensures |l| > 0
  {
    match t
    case Crisis => "Crise"
    case Opportunity => "Opportunit\U{E9}"
    case Neutral => "\U{C9}v\U{E9}nement"
  }

  /** Both are defined for each kind, and tell the kinds apart. */
  lemma EventTypeDisplayDistinct(a: EventType, b: EventType)
    requires a != b
    ensures GetEventTypeColor(a) != GetEventTypeColor(b)
    ensures GetEventTypeLabel(a) != GetEventTypeLabel(b)
  {
  }
}
