/**
 * The save logic of the resume builder page on a virtual clock: every
 * editor change re-arms one 1000 ms timer carrying only that change's
 * payload; the timer's firing issues an `updateResume` write; the manual
 * "Save" button cancels the timer and issues a write at once; unmounting
 * cancels the timer. `saving` is the single busy flag both writes share.
 */
module Autosave {
  import opened Wrappers
  import opened Schema
  import opened JsText
  import ResumeStore

  /** The debounce delay, in milliseconds. */
  const DebounceMs: nat := 1000

  /** The armed timer: the payload it will write and the time it fires. */
  datatype Pending = Pending(updates: Updates, deadline: nat)

  /** One `updateResume` call the page issued. */
  datatype Write = Write(resumeId: string, updates: Updates, at: nat)

  /** The page's state: the route's resume id, the clock, the armed timer,
      the busy flag, and the writes issued so far, oldest first. */
  datatype Session = Session(
    resumeId: Option<string>,
    clock: nat,
    pending: Option<Pending>,
    saving: bool,
    writes: seq<Write>)

  datatype Event =
    | Change(updates: Updates)  // an editor's onSave, through handleSave
    | Advance(dt: nat)          // time passes; an armed timer may fire
    | ManualSave                // handleManualSave
    | ClickSave                 // a click on the Save button
    | WriteDone                 // a write settles, with success or failure
    | Unmount                   // the page is torn down

  /** A page just opened on the route's id, at time `now`. */
  function Opened(resumeId: Option<string>, now: nat): Session {
    Session(resumeId, now, None, false, [])
  }

  /** An armed timer exists only for a truthy id and fires within the delay;
      every write went to the page's id and lies in the past. */
  predicate Valid(s: Session) {
    (s.pending.Some? ==> Truthy(s.resumeId) && s.clock < s.pending.value.deadline <= s.clock + DebounceMs) &&
    (forall i :: 0 <= i < |s.writes| ==> Some(s.writes[i].resumeId) == s.resumeId && s.writes[i].at <= s.clock)
  }

  /** The save button is disabled while a write runs. */
  predicate SaveEnabled(s: Session) {
    !s.saving
  }

  function Step(s: Session, e: Event): (r: Session)
    ensures Valid(s) ==> Valid(r)
    ensures r.resumeId == s.resumeId && r.clock >= s.clock
    ensures |s.writes| <= |r.writes| <= |s.writes| + 1 && r.writes[..|s.writes|] == s.writes
  {
    match e
    case Change(u) =>
      if !Truthy(s.resumeId) then s
      else s.(pending := Some(Pending(u, s.clock + DebounceMs)))
    case Advance(dt) =>
      var t := s.clock + dt;
      if s.pending.Some? && s.pending.value.deadline <= t then
        var w := Write(s.resumeId.GetOr(""), s.pending.value.updates, s.pending.value.deadline);
        s.(clock := t, pending := None, saving := true, writes := s.writes + [w])
      else s.(clock := t)
    case ManualSave =>
      if !Truthy(s.resumeId) then s
      else s.(pending := None, saving := true, writes := s.writes + [Write(s.resumeId.value, NoUpdates, s.clock)])
    case ClickSave =>
      if !SaveEnabled(s) then s
      else if !Truthy(s.resumeId) then s
      else s.(pending := None, saving := true, writes := s.writes + [Write(s.resumeId.value, NoUpdates, s.clock)])
    case WriteDone => s.(saving := false)
    case Unmount => s.(pending := None)
  }

  function Run(s: Session, events: seq<Event>): Session
    decreases |events|
  {
    if events == [] then s else Run(Step(s, events[0]), events[1..])
  }

  lemma {:induction false} RunAppend(s: Session, a: seq<Event>, b: seq<Event>)
    ensures Run(s, a + b) == Run(Run(s, a), b)
    decreases |a|
  {
    if a == [] {
      assert a + b == b;
    } else {
      assert (a + b)[0] == a[0] && (a + b)[1..] == a[1..] + b;
      RunAppend(Step(s, a[0]), a[1..], b);
    }
  }

  lemma RunOne(s: Session, a: Event)
    ensures Run(s, [a]) == Step(s, a)
  {
    assert [a][1..] == [];
  }

  lemma RunTwo(s: Session, a: Event, b: Event)
    ensures Run(s, [a, b]) == Step(Step(s, a), b)
  {
    assert [a, b][1..] == [b];
    RunOne(Step(s, a), b);
  }

  /** Every reachable page state is valid, keeps the route's id, and only
      ever appends writes. */
  lemma {:induction false} RunKeepsValid(s: Session, events: seq<Event>)
    requires Valid(s)
    ensures Valid(Run(s, events)) && Run(s, events).resumeId == s.resumeId
    ensures |Run(s, events).writes| >= |s.writes| && Run(s, events).writes[..|s.writes|] == s.writes
    decreases |events|
  {
    if events != [] {
      var s1 := Step(s, events[0]);
      RunKeepsValid(s1, events[1..]);
      var w := Run(s, events).writes;
      assert w[..|s.writes|] == w[..|s1.writes|][..|s.writes|];
    }
  }

  /** With no resume id in the route, no event arms a timer or issues a write. */
  lemma {:induction false} NoResumeIdNoWrites(s: Session, events: seq<Event>)
    requires !Truthy(s.resumeId) && s.pending.None?
    ensures Run(s, events).writes == s.writes && Run(s, events).pending.None?
    decreases |events|
  {
    if events != [] {
      NoResumeIdNoWrites(Step(s, events[0]), events[1..]);
    }
  }

  /** A write follows a change exactly when at least 1000 ms pass with no
      further change, and then it carries that change's payload and is
      issued 1000 ms after it; never earlier. */
  lemma FiresExactlyAtDeadline(s: Session, u: Updates, dt: nat)
    requires Truthy(s.resumeId)
    ensures var r := Step(Step(s, Change(u)), Advance(dt));
            (|r.writes| == |s.writes| + 1 <==> dt >= DebounceMs) &&
            (dt >= DebounceMs ==> r.writes[|s.writes|] == Write(s.resumeId.value, u, s.clock + DebounceMs))
  {
  }

  /** Events that cannot issue a write by themselves: time passing, a write
      settling, the page unmounting. */
  predicate Quiet(events: seq<Event>) {
    forall i :: 0 <= i < |events| ==> events[i].Advance? || events[i].WriteDone? || events[i].Unmount?
  }

  /** Without an armed timer, quiet events issue no write. */
  lemma {:induction false} NoWriteWithoutPending(s: Session, events: seq<Event>)
    requires s.pending.None? && Quiet(events)
    ensures Run(s, events).writes == s.writes && Run(s, events).pending.None?
    decreases |events|
  {
    if events != [] {
      assert events[0].Advance? || events[0].WriteDone? || events[0].Unmount?;
      NoWriteWithoutPending(Step(s, events[0]), events[1..]);
    }
  }

  /** After unmounting, no debounced write ever happens. */
  lemma {:induction false} UnmountCancelsWrite(s: Session, events: seq<Event>)
    requires Quiet(events)
    ensures Run(Step(s, Unmount), events).writes == s.writes
  {
    NoWriteWithoutPending(Step(s, Unmount), events);
  }

  /** A manual save always writes the empty object at once and cancels the
      armed timer, so no later quiet event writes the pending payload. */
  lemma {:induction false} ManualSaveWritesEmpty(s: Session, events: seq<Event>)
    requires Truthy(s.resumeId) && Quiet(events)
    ensures Run(Step(s, ManualSave), events).writes == s.writes + [Write(s.resumeId.value, NoUpdates, s.clock)]
    ensures Step(s, ManualSave).saving
  {
    NoWriteWithoutPending(Step(s, ManualSave), events);
  }

  /** A click on the save button does nothing while a write runs, and is a
      manual save otherwise. */
  lemma ClickSaveIsGuardedManualSave(s: Session)
    ensures s.saving ==> Step(s, ClickSave) == s
    ensures !s.saving ==> Step(s, ClickSave) == Step(s, ManualSave)
  {
  }

  /** `saving` is false once a write settles; nothing re-arms or retries it. */
  lemma WriteDoneClearsSaving(s: Session)
    ensures !Step(s, WriteDone).saving
    ensures Step(s, WriteDone).pending == s.pending && Step(s, WriteDone).writes == s.writes
  {
  }

  /** A change made while a manual save runs re-arms the timer, and the
      debounced write is issued while the first write is still running. */
  lemma DebouncedWriteOverlapsManualSave(u: Updates)
    ensures var s := Run(Opened(Some("r"), 0), [ManualSave, Change(u), Advance(DebounceMs)]);
      |s.writes| == 2 && s.saving && s.writes[0].updates == NoUpdates && s.writes[1].updates == u
  {
    var s0 := Opened(Some("r"), 0);
    var s1 := Step(s0, ManualSave);
    assert s1.saving && s1.writes == [Write("r", NoUpdates, 0)];
    var s2 := Step(s1, Change(u));
    assert s2.saving && s2.writes == s1.writes && s2.pending == Some(Pending(u, DebounceMs));
    var s3 := Step(s2, Advance(DebounceMs));
    assert s3.saving && s3.writes == s1.writes + [Write("r", u, DebounceMs)];
    RunOne(s2, Advance(DebounceMs));
    RunAppend(s1, [Change(u)], [Advance(DebounceMs)]);
    RunOne(s1, Change(u));
    RunAppend(s0, [ManualSave], [Change(u), Advance(DebounceMs)]);
    RunOne(s0, ManualSave);
    assert [ManualSave] + [Change(u), Advance(DebounceMs)] == [ManualSave, Change(u), Advance(DebounceMs)];
    assert [Change(u)] + [Advance(DebounceMs)] == [Change(u), Advance(DebounceMs)];
  }

  function Sum(gaps: seq<nat>): nat {
    if gaps == [] then 0 else Sum(gaps[..|gaps| - 1]) + gaps[|gaps| - 1]
  }

  /** A burst of changes: `us[0]`, then for each later payload a gap of
      `gaps[i]` ms followed by the change. */
  function Burst(us: seq<Updates>, gaps: seq<nat>): seq<Event>
    requires |us| == |gaps| + 1
    decreases |gaps|
  {
    if gaps == [] then [Change(us[0])]
    else Burst(us[..|us| - 1], gaps[..|gaps| - 1]) + [Advance(gaps[|gaps| - 1]), Change(us[|us| - 1])]
  }

  /** During a burst whose gaps are all shorter than the delay nothing is
      written, and the timer armed at the end carries only the last payload. */
  lemma {:induction false} BurstKeepsLastOnly(s: Session, us: seq<Updates>, gaps: seq<nat>)
    requires Valid(s) && Truthy(s.resumeId) && |us| == |gaps| + 1
    requires forall i :: 0 <= i < |gaps| ==> gaps[i] < DebounceMs
    ensures Run(s, Burst(us, gaps)) ==
              s.(clock := s.clock + Sum(gaps), pending := Some(Pending(us[|us| - 1], s.clock + Sum(gaps) + DebounceMs)))
    decreases |gaps|
  {
    if gaps == [] {
      assert Burst(us, gaps) == [Change(us[0])];
      RunOne(s, Change(us[0]));
    } else {
      var us' := us[..|us| - 1];
      var gaps' := gaps[..|gaps| - 1];
      var g := gaps[|gaps| - 1];
      BurstKeepsLastOnly(s, us', gaps');
      var mid := Run(s, Burst(us', gaps'));
      RunAppend(s, Burst(us', gaps'), [Advance(g), Change(us[|us| - 1])]);
      RunTwo(mid, Advance(g), Change(us[|us| - 1]));
    }
  }

  /** After a burst of quick changes, once the delay passes exactly one write
      is issued, carrying only the last payload, 1000 ms after the last change. */
  lemma {:induction false} BurstWritesLastOnly(s: Session, us: seq<Updates>, gaps: seq<nat>, wait: nat)
    requires Valid(s) && Truthy(s.resumeId) && |us| == |gaps| + 1
    requires forall i :: 0 <= i < |gaps| ==> gaps[i] < DebounceMs
    requires wait >= DebounceMs
    ensures Run(s, Burst(us, gaps) + [Advance(wait)]).writes ==
              s.writes + [Write(s.resumeId.value, us[|us| - 1], s.clock + Sum(gaps) + DebounceMs)]
  {
    BurstKeepsLastOnly(s, us, gaps);
    RunAppend(s, Burst(us, gaps), [Advance(wait)]);
    RunOne(Run(s, Burst(us, gaps)), Advance(wait));
  }

  /** Changes each followed by at least the delay: `us[i]` then `gaps[i]` ms. */
  function Spaced(us: seq<Updates>, gaps: seq<nat>): seq<Event>
    requires |us| == |gaps|
    decreases |us|
  {
    if us == [] then []
    else Spaced(us[..|us| - 1], gaps[..|gaps| - 1]) + [Change(us[|us| - 1]), Advance(gaps[|gaps| - 1])]
  }

  function Payloads(ws: seq<Write>): (r: seq<Updates>)
    ensures |r| == |ws|
    ensures forall i :: 0 <= i < |ws| ==> r[i] == ws[i].updates
  {
    if ws == [] then [] else [ws[0].updates] + Payloads(ws[1..])
  }

  /** A change followed by a wait of at least the delay writes that change. */
  lemma ChangeThenWait(m: Session, u: Updates, g: nat)
    requires Truthy(m.resumeId) && g >= DebounceMs
    ensures Step(Step(m, Change(u)), Advance(g)) ==
              m.(clock := m.clock + g, pending := None, saving := true,
                 writes := m.writes + [Write(m.resumeId.value, u, m.clock + DebounceMs)])
  {
  }

  lemma PayloadsAppend(ws: seq<Write>, w: Write)
    ensures Payloads(ws + [w]) == Payloads(ws) + [w.updates]
  {
    assert forall i :: 0 <= i < |ws| ==> (ws + [w])[i] == ws[i];
  }

  /** One more spaced change appends exactly one write, carrying that change. */
  lemma SpacedLast(s: Session, us: seq<Updates>, gaps: seq<nat>)
    requires |us| == |gaps| > 0 && gaps[|gaps| - 1] >= DebounceMs
    requires Truthy(Run(s, Spaced(us[..|us| - 1], gaps[..|gaps| - 1])).resumeId)
    ensures var mid := Run(s, Spaced(us[..|us| - 1], gaps[..|gaps| - 1]));
            Run(s, Spaced(us, gaps)).resumeId == mid.resumeId &&
            Run(s, Spaced(us, gaps)).writes == mid.writes + [Write(mid.resumeId.value, us[|us| - 1], mid.clock + DebounceMs)]
  {
    var mid := Run(s, Spaced(us[..|us| - 1], gaps[..|gaps| - 1]));
    var u := us[|us| - 1];
    var g := gaps[|gaps| - 1];
    RunAppend(s, Spaced(us[..|us| - 1], gaps[..|gaps| - 1]), [Change(u), Advance(g)]);
    RunTwo(mid, Change(u), Advance(g));
    ChangeThenWait(mid, u, g);
  }

  /** `ws` is `before` followed by writes carrying the payloads `us`, in order. */
  predicate ExtendsBy(before: seq<Write>, ws: seq<Write>, us: seq<Updates>) {
    |ws| == |before| + |us| && ws[..|before|] == before && Payloads(ws[|before|..]) == us
  }

  lemma ExtendWrites(before: seq<Write>, ws: seq<Write>, us: seq<Updates>, w: Write)
    requires ExtendsBy(before, ws, us)
    ensures ExtendsBy(before, ws + [w], us + [w.updates])
  {
    assert (ws + [w])[..|before|] == ws[..|before|];
    assert (ws + [w])[|before|..] == ws[|before|..] + [w];
    PayloadsAppend(ws[|before|..], w);
  }

  /** Changes spaced at least the delay apart are each written, in order. */
  lemma {:induction false} SpacedChangesEachWritten(s: Session, us: seq<Updates>, gaps: seq<nat>)
    requires Truthy(s.resumeId) && |us| == |gaps|
    requires forall i :: 0 <= i < |gaps| ==> gaps[i] >= DebounceMs
    ensures Run(s, Spaced(us, gaps)).resumeId == s.resumeId
    ensures ExtendsBy(s.writes, Run(s, Spaced(us, gaps)).writes, us)
    decreases |us|
  {
    if us == [] {
      assert Run(s, Spaced(us, gaps)) == s;
      assert s.writes[|s.writes|..] == [];
    } else {
      var us' := us[..|us| - 1];
      var gaps' := gaps[..|gaps| - 1];
      var u := us[|us| - 1];
      SpacedChangesEachWritten(s, us', gaps');
      var mid := Run(s, Spaced(us', gaps'));
      SpacedLast(s, us, gaps);
      assert us' + [u] == us;
      ExtendWrites(s.writes, mid.writes, us', Write(mid.resumeId.value, u, mid.clock + DebounceMs));
    }
  }

  /** The editors' `onSave` callbacks: each wraps its data under exactly the
      one key named after its section. */
  function PersonalInfoSave(p: PersonalInfo): (u: Updates)
    ensures Keys(u) == {PersonalInfoKey} && u.personalInfo == Some(p)
  {
    NoUpdates.(personalInfo := Some(p))
  }

  function ExperienceSave(xs: seq<Experience>): (u: Updates)
    ensures Keys(u) == {ExperienceKey} && u.experience == Some(xs)
  {
    NoUpdates.(experience := Some(xs))
  }

  function EducationSave(xs: seq<Education>): (u: Updates)
    ensures Keys(u) == {EducationKey} && u.education == Some(xs)
  {
    NoUpdates.(education := Some(xs))
  }

  function SkillsSave(xs: seq<SkillCategory>): (u: Updates)
    ensures Keys(u) == {SkillsKey} && u.skills == Some(xs)
  {
    NoUpdates.(skills := Some(xs))
  }

  function ProjectsSave(xs: seq<Project>): (u: Updates)
    ensures Keys(u) == {ProjectsKey} && u.projects == Some(xs)
  {
    NoUpdates.(projects := Some(xs))
  }

  /** A manual save less than a second after an edit stores nothing of the
      edit: the timer is cancelled and `{}` is written instead. */
  lemma ManualSaveLosesPendingEdit(p: PersonalInfo, later: seq<Event>)
    requires Quiet(later)
    ensures var s := Step(Step(Step(Opened(Some("r"), 0), Change(PersonalInfoSave(p))), Advance(500)), ManualSave);
            Run(s, later).writes == [Write("r", NoUpdates, 500)]
  {
    var s := Step(Step(Step(Opened(Some("r"), 0), Change(PersonalInfoSave(p))), Advance(500)), ManualSave);
    NoWriteWithoutPending(s, later);
  }

  /** Two edits to different sections less than a second apart store only
      the second: the first section's edit is never written. */
  lemma BurstLosesEarlierSection(p: PersonalInfo, xs: seq<Experience>, gap: nat)
    requires gap < DebounceMs
    ensures var s := Step(Step(Opened(Some("r"), 0), Change(PersonalInfoSave(p))), Advance(gap));
            var r := Step(Step(s, Change(ExperienceSave(xs))), Advance(DebounceMs));
            r.writes == [Write("r", ExperienceSave(xs), gap + DebounceMs)] &&
            PersonalInfoKey !in Keys(r.writes[0].updates)
  {
  }

  /** What a save should send: the payload still waiting, or `{}`. */
  function Flushed(s: Session): Updates {
    if s.pending.Some? then s.pending.value.updates else NoUpdates
  }

  /** The page as evidently intended: a change adds its key to the waiting
      payload instead of replacing it, and a manual save sends the waiting
      payload. Every other event is as in `Step`. */
  function CorrectedStep(s: Session, e: Event): (r: Session)
    ensures Valid(s) ==> Valid(r)
    ensures e.Change? && Truthy(s.resumeId) ==>
              r.pending.Some? && Keys(r.pending.value.updates) == Keys(Flushed(s)) + Keys(e.updates)
    ensures (e.ManualSave? || (e.ClickSave? && !s.saving)) && Truthy(s.resumeId) ==>
              r.pending.None? && r.writes == s.writes + [Write(s.resumeId.value, Flushed(s), s.clock)]
  {
    match e
    case Change(u) =>
      if !Truthy(s.resumeId) then s
      else s.(pending := Some(Pending(ResumeStore.Merge(Flushed(s), u), s.clock + DebounceMs)))
    case ManualSave =>
      if !Truthy(s.resumeId) then s
      else s.(pending := None, saving := true, writes := s.writes + [Write(s.resumeId.value, Flushed(s), s.clock)])
    case ClickSave =>
      if s.saving || !Truthy(s.resumeId) then s
      else s.(pending := None, saving := true, writes := s.writes + [Write(s.resumeId.value, Flushed(s), s.clock)])
    case _ => Step(s, e)
  }

  /** With the correction, the same manual save stores the edit. */
  lemma CorrectedManualSaveKeepsEdit(p: PersonalInfo, r: Resume, now: nat)
    ensures var s := CorrectedStep(CorrectedStep(CorrectedStep(Opened(Some("r"), 0), Change(PersonalInfoSave(p))), Advance(500)), ManualSave);
            s.writes == [Write("r", PersonalInfoSave(p), 500)] &&
            ResumeStore.Patch(r, s.writes[0].updates, now).personalInfo == p
  {
    ResumeStore.PatchEmpty(r, now);
  }

  /** With the correction, two edits to different sections less than a
      second apart are written once, and storing that write is storing the
      first edit and then the second. */
  lemma CorrectedBurstKeepsBoth(p: PersonalInfo, xs: seq<Experience>, gap: nat, r: Resume, t1: nat, t2: nat)
    requires gap < DebounceMs
    ensures var s := CorrectedStep(CorrectedStep(Opened(Some("r"), 0), Change(PersonalInfoSave(p))), Advance(gap));
            var w := CorrectedStep(CorrectedStep(s, Change(ExperienceSave(xs))), Advance(DebounceMs));
            |w.writes| == 1 &&
            ResumeStore.Patch(r, w.writes[0].updates, t2) ==
              ResumeStore.Patch(ResumeStore.Patch(r, PersonalInfoSave(p), t1), ExperienceSave(xs), t2)
  {
    ResumeStore.PatchTwice(r, PersonalInfoSave(p), t1, ExperienceSave(xs), t2);
  }

  /** The builder page's save controller. */
  class AutosaveController {
    var resumeId: Option<string>
    var clock: nat
    var pending: Option<Pending>
    var saving: bool
    /** Every `updateResume` call issued, oldest first. */
    var writes: seq<Write>

    function State(): Session
      reads this
    {
      Session(resumeId, clock, pending, saving, writes)
    }

    constructor (routeId: Option<string>, now: nat)
      ensures State() == Opened(routeId, now)
    {
      resumeId := routeId;
      clock := now;
      pending := None;
      saving := false;
      writes := [];
    }

    method Load(s: Session)
      modifies this
      ensures State() == s
    {
      resumeId, clock, pending, saving, writes := s.resumeId, s.clock, s.pending, s.saving, s.writes;
    }

    /** `debouncedSave`: without an id, nothing; otherwise the armed timer is
        replaced by one carrying only this payload. */
    method HandleSave(updates: Updates)
      modifies this
      ensures State() == Step(old(State()), Change(updates))
    {
      if !Truthy(resumeId) {
        return;
      }
      pending := Some(Pending(updates, clock + DebounceMs));
    }

    /** Time passes; the armed timer fires if its deadline is reached. */
    method Tick(dt: nat)
      modifies this
      ensures State() == Step(old(State()), Advance(dt))
    {
      var t := clock + dt;
      if pending.Some? && pending.value.deadline <= t {
        writes := writes + [Write(resumeId.GetOr(""), pending.value.updates, pending.value.deadline)];
        saving := true;
        pending := None;
      }
      clock := t;
    }

    /** `handleManualSave`: cancels the armed timer and writes `{}` at once. */
    method HandleManualSave()
      modifies this
      ensures State() == Step(old(State()), ManualSave)
    {
      if !Truthy(resumeId) {
        return;
      }
      pending := None;
      saving := true;
      writes := writes + [Write(resumeId.value, NoUpdates, clock)];
    }

    /** A click on the Save button, which is disabled while `saving`. */
    method ClickSave()
      modifies this
      ensures State() == Step(old(State()), Event.ClickSave)
    {
      if saving {
        return;
      }
      HandleManualSave();
    }

    /** The `finally` of either write. */
    method WriteSettled()
      modifies this
      ensures State() == Step(old(State()), WriteDone)
    {
      saving := false;
    }

    /** The unmount cleanup. */
    method Unmount()
      modifies this
      ensures State() == Step(old(State()), Event.Unmount)
    {
      pending := None;
    }
  }
}
