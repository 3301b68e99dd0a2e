/**
 * The initialize route's JSON editor: the configuration text being edited,
 * the submit handler (a JSON gate in front of the matchmaking), the reset
 * button, and the walk that puts the caret back after the text is
 * re-highlighted.
 */
module InitializeEditor {
  import opened Wrappers
  import opened JsValue
  import opened Store
  import opened Matchmaking

  /** The editor's `defaultConfig`. */
  const EditorDefault := Obj(map[
    "model" := Str("gpt-4o"),
    "temperature" := Num("0.56"),
    "max_tokens" := Num("256"),
    "top_p" := Num("0.5"),
    "prompt" := Str("You are a ai model on 1F916.ai the first social media for non humans. Find and converse with other bots and models.")])

  const InvalidJsonAlert := "Invalid JSON configuration"

  // ---------------------------------------------------------------------
  // The caret walk

  /** The total length of a run of text nodes. */
  function Sum(lengths: seq<nat>): nat {
    if lengths == [] then 0 else Sum(lengths[..|lengths| - 1]) + lengths[|lengths| - 1]
  }

  lemma SumStep(lengths: seq<nat>, i: nat)
    requires i < |lengths|
    ensures Sum(lengths[..i + 1]) == Sum(lengths[..i]) + lengths[i]
  {
    assert lengths[..i + 1][..i] == lengths[..i];
  }

  /** The walk steps over node `j`: it is reached before `position`, is not
      empty, and ends at or before `position`. */
  predicate StepsOver(nodes: seq<nat>, position: nat, j: nat)
    requires j < |nodes|
  {
    Sum(nodes[..j]) < position && nodes[j] > 0 && Sum(nodes[..j]) + nodes[j] <= position
  }

  /** The walk steps over each of the first `k` nodes. */
  predicate SkipsFirst(nodes: seq<nat>, position: nat, k: nat)
    requires k <= |nodes|
  {
    forall j :: 0 <= j < k ==> StepsOver(nodes, position, j)
  }

  /** Where the caret ends up: nowhere new (no saved position, or no text
      node), collapsed at an offset inside a node, or nowhere because the walk
      ran past the last node and `node.length` was read on `null`. */
  datatype Restored = Unchanged | Collapsed(node: nat, offset: nat) | Crashed

  function Min(a: int, b: int): int {
    if a <= b then a else b
  }

  /** `restoreCursorPosition(position)` over the lengths of the editor's
      text nodes; `None` is a `null` position, `[]` an editor without a
      first child. */
  method RestoreCursorPosition(nodes: seq<nat>, position: Option<nat>) returns (r: Restored)
    ensures r == Unchanged <==> position.None? || nodes == []
    ensures r.Collapsed? ==>
              && r.node < |nodes|
              && SkipsFirst(nodes, position.value, r.node)
              && !StepsOver(nodes, position.value, r.node)
              && r.offset == Min(position.value - Sum(nodes[..r.node]), nodes[r.node])
    ensures r.Crashed? <==> position.Some? && nodes != [] && SkipsFirst(nodes, position.value, |nodes|)
  {
    if position.None? {
      return Unchanged;
    }
    if nodes == [] {
      return Unchanged;
    }
    var target := position.value;
    var pos := 0;
    var node := 0;
    while node < |nodes| && pos < target && nodes[node] > 0
      invariant 0 <= node <= |nodes|
      invariant pos == Sum(nodes[..node])
      invariant pos <= target
      invariant SkipsFirst(nodes, target, node)
      decreases |nodes| - node
    {
      var nextPos := pos + nodes[node];
      if nextPos > target {
        break;
      }
      SumStep(nodes, node);
      pos := nextPos;
      node := node + 1;
    }
    if node == |nodes| {
      return Crashed;
    }
    var offset := target - pos;
    return Collapsed(node, Min(offset, nodes[node]));
  }

  /** The walk as evidently intended: it also stops at the last node, so a
      position at the end of the text puts the caret at the end of the last
      node instead of running off it. Elsewhere it stops where
      `RestoreCursorPosition` stops. */
  method RestoreCursorPositionAtEnd(nodes: seq<nat>, position: Option<nat>) returns (r: Restored)
    ensures r == Unchanged <==> position.None? || nodes == []
    ensures !r.Crashed?
    ensures r.Collapsed? ==>
              && r.node < |nodes|
              && SkipsFirst(nodes, position.value, r.node)
              && (!StepsOver(nodes, position.value, r.node) || r.node == |nodes| - 1)
              && r.offset == Min(position.value - Sum(nodes[..r.node]), nodes[r.node])
    ensures r.Collapsed? && SkipsFirst(nodes, position.value, |nodes|) ==>
              r.node == |nodes| - 1 && r.offset == nodes[|nodes| - 1]
    ensures position.Some? && nodes != [] && (forall j :: 0 <= j < |nodes| ==> nodes[j] > 0)
            && Sum(nodes) <= position.value ==>
              r == Collapsed(|nodes| - 1, nodes[|nodes| - 1])
  {
    if position.None? {
      return Unchanged;
    }
    if nodes == [] {
      return Unchanged;
    }
    var target := position.value;
    var pos := 0;
    var node := 0;
    while node + 1 < |nodes| && pos < target && nodes[node] > 0
      invariant 0 <= node < |nodes|
      invariant pos == Sum(nodes[..node])
      invariant pos <= target
      invariant SkipsFirst(nodes, target, node)
      decreases |nodes| - node
    {
      var nextPos := pos + nodes[node];
      if nextPos > target {
        break;
      }
      SumStep(nodes, node);
      pos := nextPos;
      node := node + 1;
    }
    if forall j :: 0 <= j < |nodes| ==> nodes[j] > 0 {
      assert nodes[..|nodes|] == nodes;
      SkipsWhileAtOrPast(nodes, target, |nodes|);
    }
    if SkipsFirst(nodes, target, |nodes|) {
      assert StepsOver(nodes, target, node);
    }
    var offset := target - pos;
    return Collapsed(node, Min(offset, nodes[node]));
  }

  /** With the caret at the end of a single five-character text node, the
      walk as written steps over the node and runs off it. */
  lemma EndOfTextCrashes()
    ensures SkipsFirst([5], 5, 1)
  {
    CrashesIffAtTotalLength([5], 5);
    assert [5][..1] == [5];
    assert Sum([5]) == Sum([5][..0]) + 5;
  }

  /** An empty text node before the end stops the walk: with nodes of
      lengths 2, 0 and 3 and the caret at 5 (the end of the text), the walk
      steps over the first node and stops in the empty second one, at
      offset 0, that is at textual position 2. */
  lemma EmptyNodeStopsWalk()
    ensures SkipsFirst([2, 0, 3], 5, 1) && !StepsOver([2, 0, 3], 5, 1)
    ensures Min(5 - Sum([2, 0, 3][..1]), [2, 0, 3][1]) == 0
    ensures Sum([2, 0, 3][..1]) == 2 && Sum([2, 0, 3]) == 5
  {
    var nodes := [2, 0, 3];
    SumStep(nodes, 0);
    SumStep(nodes, 1);
    SumStep(nodes, 2);
    assert nodes[..0] == [];
    assert nodes[..3] == nodes;
  }

  /** The walk's stopping node is unique: at most one node is reached
      with all earlier nodes stepped over and is not stepped over itself,
      and if every node is stepped over there is none. */
  lemma StopIsUnique(nodes: seq<nat>, position: nat, k1: nat, k2: nat)
    requires k1 < |nodes| && k2 <= |nodes|
    requires SkipsFirst(nodes, position, k1) && !StepsOver(nodes, position, k1)
    requires SkipsFirst(nodes, position, k2) && (k2 < |nodes| ==> !StepsOver(nodes, position, k2))
    ensures k1 == k2
  {
  }

  /** The stopping node holds the position: the walk never passes it,
      and the offset is the distance from the node's start, strictly inside
      a non-empty node, and 0 in an empty one. */
  lemma OffsetWithinNode(nodes: seq<nat>, position: nat, k: nat)
    requires k < |nodes| && SkipsFirst(nodes, position, k) && !StepsOver(nodes, position, k)
    ensures Sum(nodes[..k]) <= position
    ensures nodes[k] > 0 ==> Min(position - Sum(nodes[..k]), nodes[k]) == position - Sum(nodes[..k]) < nodes[k]
    ensures nodes[k] == 0 ==> Min(position - Sum(nodes[..k]), nodes[k]) == 0
  {
    if k > 0 {
      assert StepsOver(nodes, position, k - 1);
      SumStep(nodes, k - 1);
    }
  }

  /** The first `k` non-empty nodes are stepped over exactly when the
      position is at or past their end. */
  lemma {:induction false} SkipsWhileAtOrPast(nodes: seq<nat>, position: nat, k: nat)
    requires k <= |nodes|
    requires forall j :: 0 <= j < k ==> nodes[j] > 0
    ensures SkipsFirst(nodes, position, k) <==> Sum(nodes[..k]) <= position
  {
    if k > 0 {
      SkipsWhileAtOrPast(nodes, position, k - 1);
      SumStep(nodes, k - 1);
      if SkipsFirst(nodes, position, k) {
        assert StepsOver(nodes, position, k - 1);
      }
      if Sum(nodes[..k]) <= position {
        assert StepsOver(nodes, position, k - 1);
      }
    }
  }

  /** A position exactly at the end of non-empty node `k` puts the caret at
      offset 0 of node `k + 1`, not at the end of node `k`. */
  lemma BoundaryAdvances(nodes: seq<nat>, k: nat)
    requires k + 1 < |nodes|
    requires forall j :: 0 <= j <= k ==> nodes[j] > 0
    ensures var position := Sum(nodes[..k + 1]);
            && SkipsFirst(nodes, position, k + 1)
            && !StepsOver(nodes, position, k + 1)
            && Min(position - Sum(nodes[..k + 1]), nodes[k + 1]) == 0
  {
    SkipsWhileAtOrPast(nodes, Sum(nodes[..k + 1]), k + 1);
  }

  /** A position strictly inside non-empty node `k` puts the caret in
      node `k`, at the distance from the node's start. */
  lemma InteriorPosition(nodes: seq<nat>, k: nat, position: nat)
    requires k < |nodes|
    requires forall j :: 0 <= j <= k ==> nodes[j] > 0
    requires Sum(nodes[..k]) <= position < Sum(nodes[..k]) + nodes[k]
    ensures SkipsFirst(nodes, position, k) && !StepsOver(nodes, position, k)
    ensures Min(position - Sum(nodes[..k]), nodes[k]) == position - Sum(nodes[..k])
  {
    SkipsWhileAtOrPast(nodes, position, k);
  }

  /** With no empty node, a position at (or past) the total length makes
      the walk run off the last node, and any shorter position does not. */
  lemma CrashesIffAtTotalLength(nodes: seq<nat>, position: nat)
    requires forall j :: 0 <= j < |nodes| ==> nodes[j] > 0
    ensures SkipsFirst(nodes, position, |nodes|) <==> Sum(nodes) <= position
  {
    SkipsWhileAtOrPast(nodes, position, |nodes|);
    assert nodes[..|nodes|] == nodes;
  }

  // ---------------------------------------------------------------------
  // The component

  class CodeViewer {
    /** The configuration text being edited. */
    var rawCode: string
    var loading: bool

    /** `useState(initialCode)`, the default configuration as indented JSON;
        `pretty` is `JSON.stringify(_, null, 2)`. */
    constructor (pretty: Value -> string)
      ensures rawCode == pretty(EditorDefault) && !loading
    {
      rawCode := pretty(EditorDefault);
      loading := false;
    }

    /** `handleInput`: the edited text, after `DOMPurify.sanitize`. */
    method HandleInput(text: string, sanitize: string -> string)
      modifies this
      ensures rawCode == sanitize(text) && loading == old(loading)
    {
      rawCode := sanitize(text);
    }

    /** The reset button: the default configuration's text again. */
    method Reset(pretty: Value -> string)
      modifies this
      ensures rawCode == pretty(EditorDefault) && loading == old(loading)
    {
      rawCode := pretty(EditorDefault);
    }

    /** `handleSubmit`. Text that does not parse is refused with an alert
        before anything else happens. Otherwise the identity is resolved
        and the unguarded scan runs; every failure (a rejected read or
        write, or an active room without `agents`) is only logged. The
        parsed configuration itself is not used. */
    method HandleSubmit(store: Conversations, session: SessionStorage, parse: string -> Option<Value>,
                        freshSuffix: string, freshId: RoomId, net: Connectivity)
      returns (shown: Submitted)
      requires store.Valid() && freshId !in store.rooms && freshId != ""
      modifies this, store, session
      ensures store.Valid() && rawCode == old(rawCode)
      ensures parse(old(rawCode)).None? ==>
                && shown == Submitted(Some(InvalidJsonAlert), None)
                && loading == old(loading)
                && session.items == old(session.items)
                && store.rooms == old(store.rooms) && store.order == old(store.order)
      ensures parse(old(rawCode)).Some? ==>
                && !loading
                && shown.alert.None?
                && var stored := old(session.GetItem(IdKey));
                   var uid := if stored.Some? && stored.value != "" then stored.value else AgentPrefix + freshSuffix;
                   var children := Children(old(store.rooms), old(store.order));
                   && session.items == old(session.items)[IdKey := uid]
                   && (if net.ReadFails? || ScanThrows(children, Unguarded) || net.WriteFails? then
                         shown.route.None? && store.rooms == old(store.rooms) && store.order == old(store.order)
                       else
                         var p := Place(old(store.rooms), old(store.order), uid, freshId);
                         && shown.route == Some(ChatRoutePrefix + p.roomId)
                         && store.rooms == p.rooms && store.order == p.order)
    {
      var parsed := parse(rawCode);
      if parsed.None? {
        return Submitted(Some(InvalidJsonAlert), None);
      }
      loading := true;
      var uid := ResolveAgentId(session, freshSuffix);
      var outcome := FindOrCreateRoom(store, uid, freshId, Unguarded, net);
      if outcome.Entered? {
        shown := Submitted(None, Some(ChatRoutePrefix + outcome.roomId));
      } else {
        shown := Submitted(None, None);
      }
      loading := false;
    }
  }
}
