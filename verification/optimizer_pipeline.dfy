/** The optimizer command's edits to a pipeline: every edit finds or appends the step of an id. */
module OptimizerPipeline {
  import opened Text

  datatype Step = Step(id: string, enabled: bool, threshold: Option<real>, model: Option<string>)

  /** The one step that runs on a checkpoint. */
  const CHECKPOINT_STEP := "llmlingua-2"

  /** The step an id stands for: its last one in the list, or a new one that is off. */
  function Setting(steps: seq<Step>, id: string): (s: Step)
    ensures s.id == id
  {
    if steps == [] then Step(id, false, None, None)
    else if Last(steps).id == id then Last(steps)
    else Setting(Init(steps), id)
  }

  /** Whether no later step has the same id. */
  ghost predicate IsLast(steps: seq<Step>, k: nat)
    requires k < |steps|
  {
    forall j | k < j < |steps| :: steps[j].id != steps[k].id
  }

  /** What edits keep: the ids and their places; steps hidden by a later one; new ids are new and distinct. */
  ghost predicate Extends(before: seq<Step>, after: seq<Step>) {
    && |before| <= |after|
    && (forall k | 0 <= k < |before| :: after[k].id == before[k].id)
    && (forall k | 0 <= k < |before| && !IsLast(before, k) :: after[k] == before[k])
    && (forall i, j | 0 <= i < j < |after| && |before| <= j :: after[i].id != after[j].id)
  }

  ghost predicate Has(steps: seq<Step>, id: string) {
    exists k :: 0 <= k < |steps| && steps[k].id == id
  }

  lemma {:induction false} SettingAtLast(steps: seq<Step>, k: nat)
    requires k < |steps| && IsLast(steps, k)
    ensures Setting(steps, steps[k].id) == steps[k]
  {
    if k < |steps| - 1 {
      assert Last(steps) == steps[|steps| - 1];
      assert forall j | k < j < |steps| - 1 :: Init(steps)[j] == steps[j];
      SettingAtLast(Init(steps), k);
    }
  }

  lemma {:induction false} SettingOfAbsent(steps: seq<Step>, id: string)
    requires !Has(steps, id)
    ensures Setting(steps, id) == Step(id, false, None, None)
  {
    if steps != [] {
      assert Last(steps) == steps[|steps| - 1];
      assert forall j | 0 <= j < |steps| - 1 :: Init(steps)[j] == steps[j];
      SettingOfAbsent(Init(steps), id);
    }
  }

  /** Replacing the step an id stands for changes what that id stands for and nothing else. */
  lemma {:induction false} SettingAfterUpdate(steps: seq<Step>, k: nat, s: Step, id: string)
    requires k < |steps| && IsLast(steps, k) && s.id == steps[k].id
    ensures Setting(steps[k := s], id) == if id == s.id then s else Setting(steps, id)
  {
    var after := steps[k := s];
    if k == |steps| - 1 {
      assert Init(after) == Init(steps);
    } else {
      assert Init(after) == Init(steps)[k := s];
      assert forall j | k < j < |steps| - 1 :: Init(steps)[j] == steps[j];
      SettingAfterUpdate(Init(steps), k, s, id);
    }
  }

  /** After the edits: places are kept, and what every id stands for is given by a function of the id. */
  ghost predicate Leads(a: seq<Step>, b: seq<Step>, ids: seq<string>, setting: string -> Step) {
    Extends(a, b) && (forall id | id in ids :: Has(b, id)) && forall x :: Setting(b, x) == setting(x)
  }

  /** An edit that found or appended the step of an id and then wrote it. */
  lemma LeadsFurther(a: seq<Step>, b: seq<Step>, c: seq<Step>, d: seq<Step>, ids: seq<string>, s: Step,
                     before: string -> Step, after: string -> Step)
    requires Leads(a, b, ids, before)
    requires Extends(b, c) && forall x :: Setting(c, x) == Setting(b, x)
    requires Extends(c, d) && Has(d, s.id) && forall x :: Setting(d, x) == if x == s.id then s else Setting(c, x)
    requires forall x :: after(x) == if x == s.id then s else before(x)
    ensures Leads(a, d, ids + [s.id], after)
  {
    hide Setting;
    ExtendsTwice(b, c, d);
    ExtendsTwice(a, b, d);
    ExtendsHas(b, d);
    hide Extends, Has;
  }

  /** The value given last for an id, if any. */
  function ValueFor(entries: seq<(string, real)>, id: string): Option<real> {
    if entries == [] then None
    else if Last(entries).0 == id then Some(Last(entries).1)
    else ValueFor(Init(entries), id)
  }

  /** The cloned steps and the index over them. */
  class Pipeline {
    var steps: seq<Step>
    var byId: map<string, nat>

    /** The index finds the last step of every id in the list. */
    ghost predicate Valid()
      reads this
    {
      && (forall k | 0 <= k < |steps| :: steps[k].id in byId)
      && (forall id | id in byId :: byId[id] < |steps| && steps[byId[id]].id == id && IsLast(steps, byId[id]))
    }

    constructor (steps: seq<Step>)
      ensures Valid() && this.steps == steps
    {
      this.steps := steps;
      byId := map[];
      new;
      for i := 0 to |steps|
        invariant this.steps == steps
        invariant forall k | 0 <= k < i :: steps[k].id in byId
        invariant forall id | id in byId ::
            byId[id] < i && steps[byId[id]].id == id && forall j | byId[id] < j < i :: steps[j].id != id
      {
        byId := byId[steps[i].id := i];
      }
    }

    /** Finds the step of an id or appends it switched off; no id changes its setting by this. */
    method Upsert(id: string) returns (k: nat)
      requires Valid()
      modifies this
      ensures Valid() && Extends(old(steps), steps)
      ensures k < |steps| && IsLast(steps, k) && steps[k] == Setting(old(steps), id)
      ensures forall x :: Setting(steps, x) == Setting(old(steps), x)
    {
      if id in byId {
        k := byId[id];
        SettingAtLast(steps, k);
      } else {
        assert !Has(steps, id);
        SettingOfAbsent(steps, id);
        var s := Step(id, false, None, None);
        assert Init(steps + [s]) == steps && Last(steps + [s]) == s;
        k := |steps|;
        byId := byId[id := k];
        steps := steps + [s];
      }
    }

    /** Writes the step of an id, in place. */
    method Write(k: nat, s: Step)
      requires Valid() && k < |steps| && IsLast(steps, k) && s.id == steps[k].id
      modifies this`steps
      ensures Valid() && Extends(old(steps), steps) && Has(steps, s.id)
      ensures forall x :: Setting(steps, x) == if x == s.id then s else Setting(old(steps), x)
    {
      hide Setting;
      ghost var was := steps;
      steps := steps[k := s];
      forall x
        ensures Setting(steps, x) == if x == s.id then s else Setting(was, x)
      {
        SettingAfterUpdate(was, k, s, x);
      }
      assert steps[k].id == s.id;
    }

    /** One of the two loops over ids. */
    method Switch(ids: seq<string>, on: bool)
      requires Valid()
      modifies this
      ensures Valid() && Leads(old(steps), steps, ids, Switched(old(steps), ids, on))
    {
      hide Setting, Extends, Has, IsLast, Leads, Switched;
      SwitchNone(steps, on);
      for i := 0 to |ids|
        invariant Valid() && Leads(old(steps), steps, ids[..i], Switched(old(steps), ids[..i], on))
      {
        ghost var s0 := steps;
        var k := Upsert(ids[i]);
        ghost var s1 := steps;
        var s := steps[k].(enabled := on);
        Write(k, s);
        assert ids[..i + 1] == ids[..i] + [ids[i]];
        SwitchOne(old(steps), s0, s1, steps, ids[..i], ids[i], on);
      }
      assert ids[..|ids|] == ids;
    }

    /** The loop over parsed thresholds. */
    method SetThresholds(entries: seq<(string, real)>)
      requires Valid()
      modifies this
      ensures Valid() && Leads(old(steps), steps, Firsts(entries), Thresholded(old(steps), entries))
    {
      hide Setting, Extends, Has, IsLast;
      ExtendsItself(steps);
      for i := 0 to |entries|
        invariant Valid() && Leads(old(steps), steps, Firsts(entries[..i]), Thresholded(old(steps), entries[..i]))
      {
        ghost var s0 := steps;
        var k := Upsert(entries[i].0);
        ghost var s1 := steps;
        var s := steps[k].(threshold := Some(entries[i].1));
        Write(k, s);
        assert Init(entries[..i + 1]) == entries[..i] && Last(entries[..i + 1]) == entries[i];
        assert Firsts(entries[..i + 1]) == Firsts(entries[..i]) + [s.id];
        LeadsFurther(old(steps), s0, s1, steps, Firsts(entries[..i]), s,
          Thresholded(old(steps), entries[..i]), Thresholded(old(steps), entries[..i + 1]));
      }
      assert entries[..|entries|] == entries;
    }

    /** All edits, in the order of the command. */
    method Configure(enable: seq<string>, disable: seq<string>, entries: seq<(string, real)>,
        checkpoint: Option<string>)
      requires Valid()
      modifies this
      ensures Valid() && Configured(old(steps), steps, enable, disable, entries, "llmlingua-2", checkpoint)
    {
      hide Setting, Extends, Has, IsLast, Configured, Leads, ValueFor, Firsts;
      Switch(enable, true);
      ghost var s1 := steps;
      Switch(disable, false);
      ghost var s2 := steps;
      SetThresholds(entries);
      ghost var s3 := steps;
      ThreeLead(old(steps), s1, s2, s3, enable, disable, entries, CHECKPOINT_STEP);
      if checkpoint.Some? {
        var k := Upsert(CHECKPOINT_STEP);
        ghost var s4 := steps;
        var s := steps[k].(model := checkpoint);
        Write(k, s);
        ThenCheckpoint(old(steps), s3, s4, steps, enable, disable, entries, s, CHECKPOINT_STEP);
      }
    }
  }

  /**
   * What the flags give: disabling wins over enabling, the last threshold for an id wins, the
   * checkpoint goes to one step, and nothing else about any id changes.
   */
  ghost predicate Configured(a: seq<Step>, b: seq<Step>, enable: seq<string>, disable: seq<string>,
                             entries: seq<(string, real)>, target: string, checkpoint: Option<string>) {
    && Extends(a, b)
    && (forall id | id in enable || id in disable || id in Firsts(entries) :: Has(b, id))
    && forall x :: SettingGiven(Setting(a, x), Setting(b, x), x in enable, x in disable,
        ValueFor(entries, x), if x == target then checkpoint else None)
  }

  predicate SettingGiven(s: Step, t: Step, enable: bool, disable: bool, threshold: Option<real>,
      checkpoint: Option<string>) {
    && t.id == s.id
    && (t.enabled <==> (enable || s.enabled) && !disable)
    && t.threshold == (if threshold.Some? then threshold else s.threshold)
    && t.model == if checkpoint.Some? then checkpoint else s.model
  }

  function Firsts(entries: seq<(string, real)>): seq<string> {
    seq(|entries|, i requires 0 <= i < |entries| => entries[i].0)
  }

  ghost function Switched(steps: seq<Step>, ids: seq<string>, on: bool): string -> Step {
    x => if x in ids then Setting(steps, x).(enabled := on) else Setting(steps, x)
  }

  ghost function Thresholded(steps: seq<Step>, entries: seq<(string, real)>): string -> Step {
    x => if ValueFor(entries, x).Some? then Setting(steps, x).(threshold := ValueFor(entries, x)) else Setting(steps, x)
  }

  lemma SwitchNone(a: seq<Step>, on: bool)
    ensures Leads(a, a, [], Switched(a, [], on))
  {
    ExtendsItself(a);
  }

  lemma SwitchOne(a: seq<Step>, b: seq<Step>, c: seq<Step>, d: seq<Step>, ids: seq<string>, id: string, on: bool)
    requires Leads(a, b, ids, Switched(a, ids, on))
    requires Extends(b, c) && forall x :: Setting(c, x) == Setting(b, x)
    requires Extends(c, d) && Has(d, id)
    requires forall x :: Setting(d, x) == if x == id then Setting(b, id).(enabled := on) else Setting(c, x)
    ensures Leads(a, d, ids + [id], Switched(a, ids + [id], on))
  {
    hide Setting, Extends, Has;
    LeadsFurther(a, b, c, d, ids, Setting(b, id).(enabled := on), Switched(a, ids, on), Switched(a, ids + [id], on));
  }

  lemma ExtendsItself(a: seq<Step>)
    ensures Extends(a, a)
  {
  }

  lemma ExtendsHas(a: seq<Step>, b: seq<Step>)
    requires Extends(a, b)
    ensures forall id | Has(a, id) :: Has(b, id)
  {
    forall id | Has(a, id)
      ensures Has(b, id)
    {
      var k :| 0 <= k < |a| && a[k].id == id;
      assert b[k].id == id;
    }
  }

  /** Extension is transitive. */
  lemma ExtendsTwice(a: seq<Step>, b: seq<Step>, c: seq<Step>)
    requires Extends(a, b) && Extends(b, c)
    ensures Extends(a, c)
  {
    forall k | 0 <= k < |a| && !IsLast(a, k)
      ensures c[k] == a[k]
    {
      var j :| k < j < |a| && a[j].id == a[k].id;
      assert b[j].id == b[k].id;
    }
    forall i, j | 0 <= i < j < |c| && |a| <= j
      ensures c[i].id != c[j].id
    {
      if j < |b| {
        assert c[i].id == b[i].id && c[j].id == b[j].id;
      }
    }
  }

  /** The three loops in a row. */
  lemma ThreeLead(a: seq<Step>, b: seq<Step>, c: seq<Step>, d: seq<Step>, enable: seq<string>, disable: seq<string>,
                  entries: seq<(string, real)>, target: string)
    requires Leads(a, b, enable, Switched(a, enable, true))
    requires Leads(b, c, disable, Switched(b, disable, false))
    requires Leads(c, d, Firsts(entries), Thresholded(c, entries))
    ensures Configured(a, d, enable, disable, entries, target, None)
  {
    hide Setting, Firsts, ValueFor;
    ExtendsTwice(a, b, c);
    ExtendsTwice(a, c, d);
    ExtendsHas(b, c);
    ExtendsHas(c, d);
    hide Extends, Has;
  }

  /** The checkpoint comes last. */
  lemma ThenCheckpoint(a: seq<Step>, b: seq<Step>, c: seq<Step>, d: seq<Step>, enable: seq<string>,
                       disable: seq<string>, entries: seq<(string, real)>, s: Step, target: string)
    requires Configured(a, b, enable, disable, entries, target, None)
    requires Extends(b, c) && forall x :: Setting(c, x) == Setting(b, x)
    requires Extends(c, d) && Has(d, s.id) && forall x :: Setting(d, x) == if x == s.id then s else Setting(c, x)
    requires s == Setting(b, target).(model := s.model) && s.model.Some?
    ensures Configured(a, d, enable, disable, entries, target, s.model)
  {
    hide Setting, Firsts, ValueFor;
    ExtendsTwice(b, c, d);
    ExtendsTwice(a, b, d);
    ExtendsHas(b, d);
    hide Extends, Has;
  }
}
