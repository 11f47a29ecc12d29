/** Merging our hooks into the JSON settings of an agent. */
module JsonHooks {
  import opened HookText
  import opened Seqs
  import opened Wrappers

  datatype Json =
    | Null
    | Bool(flag: bool)
    | Number(number: string)
    | Text(text: string)
    | Array(items: seq<Json>)
    | Object(fields: map<string, Json>)

  datatype Delivery = TerminalSequence | Osc

  datatype AgentSpec = AgentSpec(agent: string, events: seq<(string, string)>, matcher: bool, delivery: Delivery)

  function HookCommand(spec: AgentSpec, event: string): string {
    if spec.delivery.TerminalSequence? then TerminalSequenceCommand(event) else OscCommand(spec.agent, event, OSC_TAIL)
  }

  function Get(value: Json, name: string): Option<Json> {
    if value.Object? && name in value.fields then Some(value.fields[name]) else None
  }

  /** The hooks of a group, if it has a list of them. */
  function HooksOf(group: Json): Option<seq<Json>> {
    var hooks := Get(group, "hooks");
    if hooks.Some? && hooks.value.Array? then Some(hooks.value.items) else None
  }

  predicate IsOwnedHook(hook: Json) {
    var command := Get(hook, "command");
    command.Some? && command.value.Text? && IsOwnedHookCommand(command.value.text)
  }

  predicate IsOurs(group: Json) {
    HooksOf(group).Some? && exists i :: 0 <= i < |HooksOf(group).value| && IsOwnedHook(HooksOf(group).value[i])
  }

  predicate IsEmptyGroup(group: Json) {
    HooksOf(group).None? || HooksOf(group).value == []
  }

  function KeptOne(group: Json): seq<Json> {
    if IsOurs(group) || IsEmptyGroup(group) then [] else [group]
  }

  /** The groups that are neither ours nor empty, in order. */
  function Kept(groups: seq<Json>): (kept: seq<Json>)
    ensures forall g :: g in kept <==> g in groups && !IsOurs(g) && !IsEmptyGroup(g)
  {
    if groups == [] then []
    else
      assert groups == groups[..|groups| - 1] + [groups[|groups| - 1]];
      Kept(groups[..|groups| - 1]) + KeptOne(groups[|groups| - 1])
  }

  lemma KeptOfOneMore(groups: seq<Json>, group: Json)
    ensures Kept(groups + [group]) == Kept(groups) + KeptOne(group)
  {
    Appended(groups, group);
  }

  lemma {:induction false} KeptOfConcat(left: seq<Json>, right: seq<Json>)
    ensures Kept(left + right) == Kept(left) + Kept(right)
  {
    if right == [] {
      assert left + right == left;
    } else {
      var front, last := right[..|right| - 1], right[|right| - 1];
      SplitLast(right);
      Regroup(left, front, [last]);
      KeptOfConcat(left, front);
      KeptOfOneMore(left + front, last);
      KeptOfOneMore(front, last);
      Regroup(Kept(left), Kept(front), KeptOne(last));
    }
  }

  lemma {:induction false} KeptIsKept(groups: seq<Json>)
    requires forall g :: g in groups ==> !IsOurs(g) && !IsEmptyGroup(g)
    ensures Kept(groups) == groups
  {
    if groups != [] {
      var n := |groups| - 1;
      assert groups == groups[..n] + [groups[n]];
      KeptIsKept(groups[..n]);
    }
  }

  function NewGroup(spec: AgentSpec, marker: string): Json {
    var hook := Object(map["type" := Text("command"), "command" := Text(HookCommand(spec, marker))]);
    var group := map["hooks" := Array([hook])];
    Object(if spec.matcher then group["matcher" := Text("*")] else group)
  }

  lemma NewGroupIsOurs(spec: AgentSpec, marker: string)
    ensures IsOurs(NewGroup(spec, marker)) && Kept([NewGroup(spec, marker)]) == []
  {
    OscIsOwned(spec.agent, marker, OSC_TAIL);
    TerminalSequenceIsOwned(marker);
    var group := NewGroup(spec, marker);
    assert IsOwnedHook(HooksOf(group).value[0]);
    assert [group][..0] == [];
  }

  /** The groups under an event; anything that is not a list counts as an empty one. */
  function GroupsOf(hooks: map<string, Json>, event: string): seq<Json> {
    if event in hooks && hooks[event].Array? then hooks[event].items else []
  }

  function MergeEvent(hooks: map<string, Json>, spec: AgentSpec, event: (string, string)): map<string, Json> {
    hooks[event.0 := Array(Kept(GroupsOf(hooks, event.0)) + [NewGroup(spec, event.1)])]
  }

  function MergeEvents(hooks: map<string, Json>, spec: AgentSpec, events: seq<(string, string)>): map<string, Json> {
    if events == [] then hooks
    else MergeEvent(MergeEvents(hooks, spec, events[..|events| - 1]), spec, events[|events| - 1])
  }

  function FieldsOf(value: Json): map<string, Json> {
    if value.Object? then value.fields else map[]
  }

  function HooksField(root: Json): map<string, Json> {
    var hooks := Get(root, "hooks");
    if hooks.Some? then FieldsOf(hooks.value) else map[]
  }

  function Merge(root: Json, spec: AgentSpec): Json {
    Object(FieldsOf(root)["hooks" := Object(MergeEvents(HooksField(root), spec, spec.events))])
  }

  method ReplaceGroups(hooks: map<string, Json>, spec: AgentSpec, event: string, marker: string)
    returns (merged: map<string, Json>)
    ensures merged == MergeEvent(hooks, spec, (event, marker))
  {
    var groups := if event in hooks && hooks[event].Array? then hooks[event].items else [];
    var kept := Retain(groups);
    merged := hooks[event := Array(kept + [NewGroup(spec, marker)])];
  }

  method MergeHooks(root: Json, spec: AgentSpec) returns (merged: Json)
    ensures merged == Merge(root, spec)
  {
    var fields := if root.Object? then root.fields else map[];
    var hooks := if "hooks" in fields && fields["hooks"].Object? then fields["hooks"].fields else map[];
    ghost var before := hooks;
    assert before == HooksField(root) && fields == FieldsOf(root);
    for i := 0 to |spec.events|
      invariant hooks == MergeEvents(before, spec, spec.events[..i])
    {
      assert spec.events[..i + 1][..i] == spec.events[..i];
      hooks := ReplaceGroups(hooks, spec, spec.events[i].0, spec.events[i].1);
    }
    assert spec.events[..|spec.events|] == spec.events;
    merged := Object(fields["hooks" := Object(hooks)]);
  }

  method Retain(groups: seq<Json>) returns (kept: seq<Json>)
    ensures kept == Kept(groups)
  {
    kept := [];
    for i := 0 to |groups|
      invariant kept == Kept(groups[..i])
    {
      assert groups[..i + 1][..i] == groups[..i];
      if !IsOurs(groups[i]) && !IsEmptyGroup(groups[i]) { kept := kept + [groups[i]]; }
    }
    assert groups[..|groups|] == groups;
  }

  // ---------------------------------------------------------------- what merging means

  /** The state announced last under an event. */
  function MarkerOf(events: seq<(string, string)>, event: string): Option<string> {
    if events == [] then None
    else if events[|events| - 1].0 == event then Some(events[|events| - 1].1)
    else MarkerOf(events[..|events| - 1], event)
  }

  /** Foreign groups survive in order, under every event; our own group comes last; events that
      are not ours are untouched. */
  lemma {:induction false} EveryEvent(hooks: map<string, Json>, spec: AgentSpec, events: seq<(string, string)>, event: string)
    ensures var merged, marker := MergeEvents(hooks, spec, events), MarkerOf(events, event);
            if marker.Some?
            then event in merged && merged[event] == Array(Kept(GroupsOf(hooks, event)) + [NewGroup(spec, marker.value)])
            else (event in merged <==> event in hooks) && (event in merged ==> merged[event] == hooks[event])
  {
    if events != [] {
      var before := events[..|events| - 1];
      EveryEvent(hooks, spec, before, event);
      var earlier := MarkerOf(before, event);
      if events[|events| - 1].0 == event && earlier.Some? {
        MergedGroupsAreKept(hooks, spec, event, earlier.value);
      }
    }
  }

  /** Taking our own group out again leaves the foreign ones. */
  lemma MergedGroupsAreKept(hooks: map<string, Json>, spec: AgentSpec, event: string, marker: string)
    ensures Kept(Kept(GroupsOf(hooks, event)) + [NewGroup(spec, marker)]) == Kept(GroupsOf(hooks, event))
  {
    var kept := Kept(GroupsOf(hooks, event));
    KeptOfConcat(kept, [NewGroup(spec, marker)]);
    KeptIsKept(kept);
    NewGroupIsOurs(spec, marker);
  }

  lemma MergeEventsTwice(hooks: map<string, Json>, spec: AgentSpec, events: seq<(string, string)>)
    ensures MergeEvents(MergeEvents(hooks, spec, events), spec, events) == MergeEvents(hooks, spec, events)
  {
    var once := MergeEvents(hooks, spec, events);
    var twice := MergeEvents(once, spec, events);
    forall event ensures (event in twice <==> event in once) && (event in once ==> twice[event] == once[event]) {
      MergeEventTwice(hooks, spec, events, event);
    }
  }

  lemma MergeEventTwice(hooks: map<string, Json>, spec: AgentSpec, events: seq<(string, string)>, event: string)
    ensures var once := MergeEvents(hooks, spec, events);
            var twice := MergeEvents(once, spec, events);
            (event in twice <==> event in once) && (event in once ==> twice[event] == once[event])
  {
    EveryEvent(hooks, spec, events, event);
    EveryEvent(MergeEvents(hooks, spec, events), spec, events, event);
    var marker := MarkerOf(events, event);
    if marker.Some? { MergedGroupsAreKept(hooks, spec, event, marker.value); }
  }

  /** Merging twice is merging once, for every settings file. */
  lemma MergeIsIdempotent(root: Json, spec: AgentSpec)
    ensures Merge(Merge(root, spec), spec) == Merge(root, spec)
  {
    MergeEventsTwice(HooksField(root), spec, spec.events);
  }

  /** Everything outside `hooks` is untouched, and so is every foreign group with hooks of its own. */
  lemma ForeignContentSurvives(root: Json, spec: AgentSpec, name: string, event: string)
    ensures name != "hooks" ==> Get(Merge(root, spec), name) == Get(root, name)
    ensures var hooks := HooksField(Merge(root, spec));
            Kept(GroupsOf(hooks, event)) == Kept(GroupsOf(HooksField(root), event))
  {
    EveryEvent(HooksField(root), spec, spec.events, event);
    var marker := MarkerOf(spec.events, event);
    if marker.Some? { MergedGroupsAreKept(HooksField(root), spec, event, marker.value); }
  }
}
