/**
 * The knowledge-base merge of `update_agent_knowledge` (uploader.py): read the agent's
 * current list of knowledge-base references, drop every reference that belongs to this
 * pipeline (its `name` or its `id` starts with "facts"), append one fresh reference to the
 * newly uploaded document, and wrap the list in the PATCH body.
 */
module KnowledgeBase {
  import opened Wrappers
  import opened Json

  /** The reserved label: the document name and the prefix that marks this pipeline's references. */
  const Reserved: string := "facts"

  /** The reference appended for a newly uploaded document. */
  function NewRef(id: Value): Value {
    Obj(map["type" := Str("file"), "name" := Str(Reserved), "id" := id, "usage_mode" := Str("auto")])
  }

  // ---------------------------------------------------------------------------------------
  // The filter as Python evaluates it: `kb.get(key, "").startswith("facts")`, name first.
  // `None` stands for the AttributeError raised on an entry that is not a dict or whose
  // field is not a string.
  // ---------------------------------------------------------------------------------------

  /** `kb.get(key, "").startswith("facts")`. */
  function FieldHasPrefix(kb: Value, key: string): Option<bool> {
    match kb
    case Obj(m) =>
      var v := if key in m then m[key] else Str("");
      if v.Str? then Some(Reserved <= v.s) else None
    case _ => None
  }

  /** `kb.get("name", "").startswith("facts") or kb.get("id", "").startswith("facts")`. */
  function MatchesReserved(kb: Value): Option<bool> {
    match FieldHasPrefix(kb, "name")
    case None => None
    case Some(true) => Some(true)
    case Some(false) => FieldHasPrefix(kb, "id")
  }

  /** The list comprehension: keep the entries that do not match, in order. */
  function Filter(kbs: seq<Value>): Option<seq<Value>> {
    if kbs == [] then Some([])
    else
      match (MatchesReserved(kbs[0]), Filter(kbs[1..]))
      case (Some(stale), Some(rest)) => Some(if stale then rest else [kbs[0]] + rest)
      case _ => None
  }

  /** Filter, then append the reference to the new document. */
  function Merge(existing: seq<Value>, newId: Value): Option<seq<Value>> {
    match Filter(existing)
    case Some(kept) => Some(kept + [NewRef(newId)])
    case None => None
  }

  // ---------------------------------------------------------------------------------------
  // The same classification stated declaratively, as the reference for the filter.
  // ---------------------------------------------------------------------------------------

  /** `v` is a string that starts with the reserved label. */
  predicate LabelledReserved(v: Value) {
    v.Str? && Reserved <= v.s
  }

  /** A stale reference: its name or its id is a string starting with the reserved label. */
  predicate Stale(kb: Value) {
    kb.Obj? &&
    (("name" in kb.fields && LabelledReserved(kb.fields["name"])) ||
     ("id" in kb.fields && LabelledReserved(kb.fields["id"])))
  }

  /**
   * An entry the filter can classify: a dict whose `name`, when present, is a string and
   * whose `id`, when present and the name does not already match, is a string.
   */
  predicate WellShaped(kb: Value) {
    kb.Obj? &&
    ("name" in kb.fields ==> kb.fields["name"].Str?) &&
    (!("name" in kb.fields && LabelledReserved(kb.fields["name"])) ==>
       ("id" in kb.fields ==> kb.fields["id"].Str?))
  }

  predicate AllWellShaped(kbs: seq<Value>) {
    forall i :: 0 <= i < |kbs| ==> WellShaped(kbs[i])
  }

  /** Strictly increasing indices. */
  predicate Increasing(idx: seq<nat>) {
    forall j, k :: 0 <= j < k < |idx| ==> idx[j] < idx[k]
  }

  /** Every position moved one place to the right. */
  function Shift(pos: seq<nat>): (r: seq<nat>)
    ensures |r| == |pos| && forall k :: 0 <= k < |pos| ==> r[k] == pos[k] + 1
  {
    seq(|pos|, k requires 0 <= k < |pos| => pos[k] + 1)
  }

  /** The positions of the entries that are not stale, in increasing order. */
  ghost function KeptPositions(kbs: seq<Value>): seq<nat> {
    if kbs == [] then []
    else if Stale(kbs[0]) then Shift(KeptPositions(kbs[1..]))
    else [0] + Shift(KeptPositions(kbs[1..]))
  }

  // ---------------------------------------------------------------------------------------
  // Lemmas
  // ---------------------------------------------------------------------------------------

  /** The Python test fails exactly on ill-shaped entries and otherwise agrees with `Stale`. */
  lemma MatchesReservedIsStale(kb: Value)
    ensures MatchesReserved(kb) == if WellShaped(kb) then Some(Stale(kb)) else None
  {
  }

  /** The reference appended by the merge is itself stale: its name is the reserved label. */
  lemma NewRefIsStale(id: Value)
    ensures WellShaped(NewRef(id)) && Stale(NewRef(id))
  {
    assert NewRef(id).fields["name"] == Str(Reserved);
  }

  /** The filter succeeds exactly when every entry is well shaped. */
  lemma {:induction false} FilterDefined(kbs: seq<Value>)
    ensures Filter(kbs).Some? <==> AllWellShaped(kbs)
  {
    if kbs != [] {
      FilterDefined(kbs[1..]);
      MatchesReservedIsStale(kbs[0]);
      if AllWellShaped(kbs[1..]) && WellShaped(kbs[0]) {
        forall i | 0 <= i < |kbs| ensures WellShaped(kbs[i]) {
          if i > 0 { assert kbs[i] == kbs[1..][i - 1]; }
        }
      }
      if AllWellShaped(kbs) {
        forall i | 0 <= i < |kbs[1..]| ensures WellShaped(kbs[1..][i]) {
          assert kbs[1..][i] == kbs[i + 1];
        }
      }
    }
  }

  /** A position is in the shifted list exactly when its predecessor was in the original. */
  lemma ShiftMember(pos: seq<nat>, i: nat)
    ensures i in Shift(pos) <==> i > 0 && i - 1 in pos
  {
    var shifted := Shift(pos);
    if i in shifted {
      var k :| 0 <= k < |shifted| && shifted[k] == i;
      assert pos[k] == i - 1;
    }
    if i > 0 && i - 1 in pos {
      var k :| 0 <= k < |pos| && pos[k] == i - 1;
      assert shifted[k] == i;
    }
  }

  /** `KeptPositions` is increasing and lies within the list. */
  lemma {:induction false} KeptPositionsIncreasing(kbs: seq<Value>)
    ensures var pos := KeptPositions(kbs);
      Increasing(pos) && forall k :: 0 <= k < |pos| ==> pos[k] < |kbs|
  {
    if kbs != [] {
      KeptPositionsIncreasing(kbs[1..]);
    }
  }

  /** A position is in `KeptPositions` exactly when its entry is not stale. */
  lemma {:induction false} KeptPositionsMember(kbs: seq<Value>, i: nat)
    requires i < |kbs|
    ensures i in KeptPositions(kbs) <==> !Stale(kbs[i])
  {
    var tail := kbs[1..];
    ShiftMember(KeptPositions(tail), i);
    if i > 0 {
      KeptPositionsMember(tail, i - 1);
      assert kbs[i] == tail[i - 1];
    }
  }

  /** The entries the filter keeps are the entries at `KeptPositions`, one for one. */
  lemma {:induction false} FilterAtKeptPositions(kbs: seq<Value>)
    requires Filter(kbs).Some?
    ensures var kept, pos := Filter(kbs).value, KeptPositions(kbs);
      |kept| == |pos| && forall k :: 0 <= k < |pos| ==> pos[k] < |kbs| && kept[k] == kbs[pos[k]]
  {
    if kbs != [] {
      var tail := kbs[1..];
      FilterAtKeptPositions(tail);
      MatchesReservedIsStale(kbs[0]);
      var tkept, tpos := Filter(tail).value, KeptPositions(tail);
      forall k | 0 <= k < |tpos| ensures tail[tpos[k]] == kbs[tpos[k] + 1] { }
    }
  }

  /**
   * The filter keeps exactly the entries that are not stale, in their original order:
   * its result is the subsequence of `kbs` at the increasing positions `KeptPositions(kbs)`,
   * and a position is among them if and only if its entry is not stale.
   */
  lemma FilterIsKeptSubsequence(kbs: seq<Value>)
    requires AllWellShaped(kbs)
    ensures Filter(kbs).Some?
    ensures |Filter(kbs).value| == |KeptPositions(kbs)| && Increasing(KeptPositions(kbs))
    ensures forall k :: 0 <= k < |KeptPositions(kbs)| ==>
      KeptPositions(kbs)[k] < |kbs| && Filter(kbs).value[k] == kbs[KeptPositions(kbs)[k]]
    ensures forall i :: 0 <= i < |kbs| ==> (i in KeptPositions(kbs) <==> !Stale(kbs[i]))
  {
    FilterDefined(kbs);
    KeptPositionsIncreasing(kbs);
    FilterAtKeptPositions(kbs);
    forall i | 0 <= i < |kbs| ensures i in KeptPositions(kbs) <==> !Stale(kbs[i]) {
      KeptPositionsMember(kbs, i);
    }
  }

  /** Filtering a list that holds no stale entry changes nothing. */
  lemma {:induction false} FilterClean(kbs: seq<Value>)
    requires forall i :: 0 <= i < |kbs| ==> WellShaped(kbs[i]) && !Stale(kbs[i])
    ensures Filter(kbs) == Some(kbs)
  {
    if kbs != [] {
      MatchesReservedIsStale(kbs[0]);
      FilterClean(kbs[1..]);
      assert [kbs[0]] + kbs[1..] == kbs;
    }
  }

  /** The filter distributes over concatenation, so it never reorders entries. */
  lemma {:induction false} FilterAppend(a: seq<Value>, b: seq<Value>)
    ensures Filter(a + b) == match (Filter(a), Filter(b))
                             case (Some(x), Some(y)) => Some(x + y)
                             case _ => None
  {
    if a == [] {
      assert a + b == b;
      if Filter(b).Some? { assert [] + Filter(b).value == Filter(b).value; }
    } else {
      assert (a + b)[0] == a[0];
      assert (a + b)[1..] == a[1..] + b;
      FilterAppend(a[1..], b);
      if Filter(a[1..]).Some? && Filter(b).Some? && MatchesReserved(a[0]).Some? {
        assert [a[0]] + (Filter(a[1..]).value + Filter(b).value)
            == ([a[0]] + Filter(a[1..]).value) + Filter(b).value;
      }
    }
  }

  /**
   * After a merge, the list ends with the reference to the new document, that reference is
   * the only stale entry, and every entry before it comes unchanged from the old list.
   */
  lemma MergeShape(existing: seq<Value>, newId: Value)
    ensures Merge(existing, newId).Some? <==> AllWellShaped(existing)
    ensures Merge(existing, newId).Some? ==>
      var merged := Merge(existing, newId).value;
      |merged| >= 1 && merged[|merged| - 1] == NewRef(newId) &&
      (forall i :: 0 <= i < |merged| ==> WellShaped(merged[i]) && (Stale(merged[i]) <==> i == |merged| - 1)) &&
      (forall i :: 0 <= i < |merged| - 1 ==> merged[i] in existing)
  {
    FilterDefined(existing);
    if AllWellShaped(existing) {
      FilterIsKeptSubsequence(existing);
      NewRefIsStale(newId);
      var kept := Filter(existing).value;
      var pos := KeptPositions(existing);
      forall i | 0 <= i < |kept| ensures WellShaped(kept[i]) && !Stale(kept[i]) && kept[i] in existing {
        assert kept[i] == existing[pos[i]];
        assert pos[i] in pos;
      }
    }
  }

  /** The length of the merged list: one more than the number of entries kept. */
  lemma MergeLength(existing: seq<Value>, newId: Value)
    requires AllWellShaped(existing)
    ensures Merge(existing, newId).Some?
    ensures |Merge(existing, newId).value| == |KeptPositions(existing)| + 1
  {
    FilterIsKeptSubsequence(existing);
  }

  /**
   * Last writer wins: merging into an already merged list gives what merging into the
   * original list gives. In particular a repeated merge with the same id changes nothing.
   */
  lemma MergeLastWriterWins(existing: seq<Value>, a: Value, b: Value)
    requires Merge(existing, a).Some?
    ensures Merge(Merge(existing, a).value, b) == Merge(existing, b)
  {
    MergeShape(existing, a);
    FilterDefined(existing);
    FilterIsKeptSubsequence(existing);
    var kept := Filter(existing).value;
    var pos := KeptPositions(existing);
    forall i | 0 <= i < |kept| ensures WellShaped(kept[i]) && !Stale(kept[i]) {
      assert kept[i] == existing[pos[i]];
      assert pos[i] in pos;
    }
    FilterClean(kept);
    FilterAppend(kept, [NewRef(a)]);
    NewRefIsStale(a);
    assert Filter([NewRef(a)]) == Some([]) by {
      assert [NewRef(a)][1..] == [];
    }
    assert kept + [] == kept;
  }

  /** Merging the same id twice is the same as merging it once. */
  lemma MergeIdempotent(existing: seq<Value>, id: Value)
    requires Merge(existing, id).Some?
    ensures Merge(Merge(existing, id).value, id) == Merge(existing, id)
  {
    MergeLastWriterWins(existing, id, id);
  }

  // ---------------------------------------------------------------------------------------
  // Reading the list out of an agent configuration and writing it back.
  // ---------------------------------------------------------------------------------------

  /**
   * `agent["conversation_config"]["agent"]["prompt"].get("knowledge_base", [])`, with the
   * surrounding `except Exception` turning any failure along the path into `[]`.
   */
  function KnowledgeBaseField(agent: Value): Value {
    if agent.Obj? && "conversation_config" in agent.fields then
      var cc := agent.fields["conversation_config"];
      if cc.Obj? && "agent" in cc.fields then
        var ag := cc.fields["agent"];
        if ag.Obj? && "prompt" in ag.fields then
          var prompt := ag.fields["prompt"];
          if prompt.Obj? then
            if "knowledge_base" in prompt.fields then prompt.fields["knowledge_base"] else Arr([])
          else Arr([])
        else Arr([])
      else Arr([])
    else Arr([])
  }

  /** The existing references as the list comprehension iterates them (`None`: it raises). */
  function ExistingRefs(agent: Value): Option<seq<Value>> {
    Elements(KnowledgeBaseField(agent))
  }

  /** The member `key` of `v` if `v` is an object holding it, otherwise `{}`. */
  function MemberOrEmpty(v: Value, key: string): Value {
    if v.Obj? && key in v.fields then v.fields[key] else EmptyObject
  }

  /** `v` with member `key` set to `x`; a non-object `v` is replaced by `{key: x}`. */
  function WithMember(v: Value, key: string, x: Value): Value {
    if v.Obj? then Obj(v.fields[key := x]) else Obj(map[key := x])
  }

  /**
   * `agent` with `conversation_config.agent.prompt.knowledge_base` set to `kbs` and every
   * other member left as it was.
   */
  function SetKnowledgeBase(agent: Value, kbs: seq<Value>): Value {
    var cc := MemberOrEmpty(agent, "conversation_config");
    var ag := MemberOrEmpty(cc, "agent");
    var prompt := MemberOrEmpty(ag, "prompt");
    WithMember(agent, "conversation_config",
      WithMember(cc, "agent",
        WithMember(ag, "prompt",
          WithMember(prompt, "knowledge_base", Arr(kbs)))))
  }

  /** The PATCH body: only the nested knowledge_base path, set to the merged list. */
  function PatchBody(kbs: seq<Value>): Value {
    Obj(map["conversation_config" :=
      Obj(map["agent" :=
        Obj(map["prompt" :=
          Obj(map["knowledge_base" := Arr(kbs)])])])])
  }

  /**
   * The agent configuration holds `conversation_config.agent.prompt.knowledge_base`,
   * with a dict at every level above the list.
   */
  predicate HasKnowledgeBasePath(agent: Value) {
    agent.Obj? && "conversation_config" in agent.fields &&
    agent.fields["conversation_config"].Obj? &&
    "agent" in agent.fields["conversation_config"].fields &&
    agent.fields["conversation_config"].fields["agent"].Obj? &&
    "prompt" in agent.fields["conversation_config"].fields["agent"].fields &&
    agent.fields["conversation_config"].fields["agent"].fields["prompt"].Obj? &&
    "knowledge_base" in agent.fields["conversation_config"].fields["agent"].fields["prompt"].fields
  }

  /**
   * When some level of the nested path is missing or is not a dict, the existing list is
   * empty and the PATCH carries the new reference alone.
   */
  lemma MissingPathMeansNoRefs(agent: Value, newId: Value)
    requires !HasKnowledgeBasePath(agent)
    ensures ExistingRefs(agent) == Some([])
    ensures Merge(ExistingRefs(agent).value, newId) == Some([NewRef(newId)])
    ensures PatchBody(Merge(ExistingRefs(agent).value, newId).value) == PatchBody([NewRef(newId)])
  {
    assert KnowledgeBaseField(agent) == Arr([]);
    assert Filter([]) == Some([]);
    assert [] + [NewRef(newId)] == [NewRef(newId)];
  }

  /**
   * The PATCH body holds exactly one member at every level of the path, and the list at
   * its end is the merged list; it is that path written into an empty configuration.
   */
  lemma PatchBodyShape(kbs: seq<Value>)
    ensures var body := PatchBody(kbs);
      body.fields.Keys == {"conversation_config"} &&
      body.fields["conversation_config"].fields.Keys == {"agent"} &&
      body.fields["conversation_config"].fields["agent"].fields.Keys == {"prompt"} &&
      body.fields["conversation_config"].fields["agent"].fields["prompt"].fields.Keys == {"knowledge_base"} &&
      KnowledgeBaseField(body) == Arr(kbs)
    ensures PatchBody(kbs) == SetKnowledgeBase(EmptyObject, kbs)
  {
  }

  /**
   * Writing the list back and reading it again gives the list, and every other member of
   * the configuration, at each level of the path, is left untouched.
   */
  lemma SetKnowledgeBaseFrame(agent: Value, kbs: seq<Value>)
    ensures KnowledgeBaseField(SetKnowledgeBase(agent, kbs)) == Arr(kbs)
    ensures ExistingRefs(SetKnowledgeBase(agent, kbs)) == Some(kbs)
    ensures var updated := SetKnowledgeBase(agent, kbs);
      agent.Obj? ==>
        (forall k :: k in agent.fields && k != "conversation_config" ==>
           k in updated.fields && updated.fields[k] == agent.fields[k])
    ensures var updated := SetKnowledgeBase(agent, kbs);
      var cc := MemberOrEmpty(agent, "conversation_config");
      var cc' := updated.fields["conversation_config"];
      cc.Obj? ==> (forall k :: k in cc.fields && k != "agent" ==> k in cc'.fields && cc'.fields[k] == cc.fields[k])
    ensures var updated := SetKnowledgeBase(agent, kbs);
      var ag := MemberOrEmpty(MemberOrEmpty(agent, "conversation_config"), "agent");
      var ag' := updated.fields["conversation_config"].fields["agent"];
      ag.Obj? ==> (forall k :: k in ag.fields && k != "prompt" ==> k in ag'.fields && ag'.fields[k] == ag.fields[k])
    ensures var updated := SetKnowledgeBase(agent, kbs);
      var prompt := MemberOrEmpty(MemberOrEmpty(MemberOrEmpty(agent, "conversation_config"), "agent"), "prompt");
      var prompt' := updated.fields["conversation_config"].fields["agent"].fields["prompt"];
      prompt.Obj? ==>
        (forall k :: k in prompt.fields && k != "knowledge_base" ==> k in prompt'.fields && prompt'.fields[k] == prompt.fields[k])
  {
  }
}
