/**
 * The model picker of the initialize route: its state (popover open, the
 * selected and the peeked model), the selection handler, and the list it
 * renders — one group per type, holding that type's models in catalogue
 * order, each marked selected when its id is the selection's id.
 */
module ModelSelector {
  import opened Wrappers
  import opened ModelCatalog

  /** One rendered `ModelItem`: the model and whether its check mark shows. */
  datatype Item = Item(model: ModelInfo, isSelected: bool)

  /** One `CommandGroup`: its heading and its items. */
  datatype Group = Group(heading: string, items: seq<Item>)

  /** `models[0]`, `undefined` for an empty list. */
  function First(models: seq<ModelInfo>): Option<ModelInfo> {
    if models == [] then None else Some(models[0])
  }

  /** `models.filter((model) => model.type === type)` */
  function OfType(models: seq<ModelInfo>, t: string): (r: seq<ModelInfo>)
    ensures |r| <= |models|
    ensures forall m :: m in r <==> m in models && m.modelType == t
  {
    if models == [] then []
    else (if models[0].modelType == t then [models[0]] else []) + OfType(models[1..], t)
  }

  /** `selectedModel?.id === model.id` */
  predicate IsSelected(selected: Option<ModelInfo>, m: ModelInfo) {
    selected.Some? && selected.value.id == m.id
  }

  /** `.map((model) => <ModelItem model={model} isSelected={...} />)` */
  function Items(models: seq<ModelInfo>, selected: Option<ModelInfo>): seq<Item> {
    seq(|models|, i requires 0 <= i < |models| => Item(models[i], IsSelected(selected, models[i])))
  }

  /** `types.map((type) => <CommandGroup heading={type}>...)` */
  function Groups(types: seq<string>, models: seq<ModelInfo>, selected: Option<ModelInfo>): seq<Group> {
    seq(|types|, i requires 0 <= i < |types| => Group(types[i], Items(OfType(models, types[i]), selected)))
  }

  /** The models of a list of items, in order. */
  function ModelsOf(items: seq<Item>): seq<ModelInfo> {
    if items == [] then [] else [items[0].model] + ModelsOf(items[1..])
  }

  /** Every model shown, group after group. */
  function Listed(gs: seq<Group>): seq<ModelInfo> {
    if gs == [] then [] else ModelsOf(gs[0].items) + Listed(gs[1..])
  }

  /** How many items of a list show the check mark. */
  function MarkedIn(items: seq<Item>): nat {
    if items == [] then 0 else (if items[0].isSelected then 1 else 0) + MarkedIn(items[1..])
  }

  /** How many rendered items show the check mark. */
  function MarkedCount(gs: seq<Group>): nat {
    if gs == [] then 0 else MarkedIn(gs[0].items) + MarkedCount(gs[1..])
  }

  // ---------------------------------------------------------------------
  // Grouping

  /** Every rendered item sits under the heading of its own type, and the
      groups follow the order of `types`. */
  lemma GroupsFollowTypes(types: seq<string>, models: seq<ModelInfo>, selected: Option<ModelInfo>)
    ensures var gs := Groups(types, models, selected);
            && |gs| == |types|
            && (forall i :: 0 <= i < |gs| ==> gs[i].heading == types[i])
            && (forall i, k :: 0 <= i < |gs| && 0 <= k < |gs[i].items| ==>
                  gs[i].items[k].model.modelType == types[i] && gs[i].items[k].model in models)
  {
    var gs := Groups(types, models, selected);
    forall i, k | 0 <= i < |gs| && 0 <= k < |gs[i].items|
      ensures gs[i].items[k].model.modelType == types[i] && gs[i].items[k].model in models
    {
      assert gs[i].items[k].model == OfType(models, types[i])[k];
    }
  }

  /** Filtering distributes over concatenation: within a group, models keep
      their catalogue order. */
  lemma {:induction false} OfTypeKeepsOrder(a: seq<ModelInfo>, b: seq<ModelInfo>, t: string)
    ensures OfType(a + b, t) == OfType(a, t) + OfType(b, t)
  {
    if a == [] {
      assert a + b == b;
    } else {
      assert (a + b)[1..] == a[1..] + b;
      OfTypeKeepsOrder(a[1..], b, t);
    }
  }

  /** A group lists each model of its type as often as the catalogue does. */
  lemma {:induction false} OfTypeCounts(models: seq<ModelInfo>, t: string, m: ModelInfo)
    ensures multiset(OfType(models, t))[m] == if m.modelType == t then multiset(models)[m] else 0
  {
    if models != [] {
      OfTypeCounts(models[1..], t, m);
      assert models == [models[0]] + models[1..];
    }
  }

  lemma {:induction false} ModelsOfItems(models: seq<ModelInfo>, selected: Option<ModelInfo>)
    ensures ModelsOf(Items(models, selected)) == models
  {
    if models != [] {
      assert Items(models, selected)[1..] == Items(models[1..], selected);
      ModelsOfItems(models[1..], selected);
    }
  }

  /** With distinct types, every model whose type is one of `types` is
      shown exactly as often as it occurs in the catalogue, and a model of
      any other type is not shown at all. */
  lemma {:induction false} EachModelListedOnce(types: seq<string>, models: seq<ModelInfo>,
                                               selected: Option<ModelInfo>, m: ModelInfo)
    requires DistinctStrings(types)
    ensures multiset(Listed(Groups(types, models, selected)))[m]
            == if m.modelType in types then multiset(models)[m] else 0
  {
    var gs := Groups(types, models, selected);
    if types != [] {
      assert gs[1..] == Groups(types[1..], models, selected);
      assert DistinctStrings(types[1..]);
      EachModelListedOnce(types[1..], models, selected, m);
      ModelsOfItems(OfType(models, types[0]), selected);
      OfTypeCounts(models, types[0], m);
      assert m.modelType in types <==> m.modelType == types[0] || m.modelType in types[1..];
      if m.modelType == types[0] {
        assert m.modelType !in types[1..];
      }
    }
  }

  // ---------------------------------------------------------------------
  // The check mark

  /** The number of models with a given id and type. */
  function CountWith(models: seq<ModelInfo>, id: string, t: string): nat {
    if models == [] then 0
    else (if models[0].id == id && models[0].modelType == t then 1 else 0) + CountWith(models[1..], id, t)
  }

  lemma {:induction false} MarkedInGroup(models: seq<ModelInfo>, t: string, sel: ModelInfo)
    ensures MarkedIn(Items(OfType(models, t), Some(sel))) == CountWith(models, sel.id, t)
  {
    if models != [] {
      MarkedInGroup(models[1..], t, sel);
      var rest := Items(OfType(models[1..], t), Some(sel));
      if models[0].modelType == t {
        var all := Items(OfType(models, t), Some(sel));
        assert all[1..] == rest;
      } else {
        assert OfType(models, t) == OfType(models[1..], t);
      }
    }
  }

  lemma {:induction false} CountWithUnique(models: seq<ModelInfo>, t: string, sel: ModelInfo)
    requires UniqueIds(models) && sel in models
    ensures CountWith(models, sel.id, t) == if sel.modelType == t then 1 else 0
  {
    if models != [] {
      assert UniqueIds(models[1..]);
      var j :| 0 <= j < |models| && models[j] == sel;
      if models[0].id == sel.id {
        assert j == 0;
        CountWithAbsent(models[1..], sel.id, t);
      } else {
        assert models[1..][j - 1] == sel;
        CountWithUnique(models[1..], t, sel);
      }
    }
  }

  lemma {:induction false} CountWithAbsent(models: seq<ModelInfo>, id: string, t: string)
    requires forall i :: 0 <= i < |models| ==> models[i].id != id
    ensures CountWith(models, id, t) == 0
  {
    if models != [] {
      CountWithAbsent(models[1..], id, t);
    }
  }

  /** With unique ids and distinct types, exactly one rendered item shows
      the check mark when the selection is one of the models and of a listed
      type — the item whose id is the selection's id — and none when its
      type is not listed. */
  lemma {:induction false} ExactlyOneMarked(types: seq<string>, models: seq<ModelInfo>, sel: ModelInfo)
    requires DistinctStrings(types) && UniqueIds(models) && sel in models
    ensures MarkedCount(Groups(types, models, Some(sel))) == if sel.modelType in types then 1 else 0
  {
    var gs := Groups(types, models, Some(sel));
    if types != [] {
      assert gs[1..] == Groups(types[1..], models, Some(sel));
      assert DistinctStrings(types[1..]);
      ExactlyOneMarked(types[1..], models, sel);
      MarkedInGroup(models, types[0], sel);
      CountWithUnique(models, types[0], sel);
      if sel.modelType == types[0] {
        assert sel.modelType !in types[1..];
      }
    }
  }

  /** For the catalogue itself: every model is listed exactly once, and a
      selected catalogue model is the one marked item. */
  lemma CatalogueRendering(selected: ModelInfo, m: ModelInfo)
    requires selected in Models && m in Models
    ensures multiset(Listed(Groups(Types, Models, Some(selected))))[m] == 1
    ensures MarkedCount(Groups(Types, Models, Some(selected))) == 1
  {
    IdsAreDistinct();
    TypesCoverModels();
    EachModelListedOnce(Types, Models, Some(selected), m);
    ExactlyOneMarked(Types, Models, selected);
    OccursOnce(Models, m);
  }

  lemma {:induction false} OccursOnce(models: seq<ModelInfo>, m: ModelInfo)
    requires UniqueIds(models) && m in models
    ensures multiset(models)[m] == 1
  {
    assert models == [models[0]] + models[1..];
    assert UniqueIds(models[1..]);
    if models[0] == m {
      assert m !in models[1..];
    } else {
      OccursOnce(models[1..], m);
    }
  }

  // ---------------------------------------------------------------------
  // State

  /** The component's state. A `selectedModel` prop is not among the
      destructured ones: it lands in `props`, which is spread onto the
      popover, so it never reaches the selection. */
  class Selector {
    var open: bool
    var selected: Option<ModelInfo>
    var peeked: Option<ModelInfo>

    constructor (models: seq<ModelInfo>, selectedModelProp: Option<ModelInfo>)
      ensures !open && selected == First(models) && peeked == First(models)
    {
      open := false;
      selected := First(models);
      peeked := First(models);
    }

    /** `handleSelect(model)`; the result lists the calls made to
        `onModelSelect`, none when the prop is not supplied. */
    method HandleSelect(model: ModelInfo, hasOnModelSelect: bool) returns (notified: seq<ModelInfo>)
      modifies this
      ensures selected == Some(model) && !open && peeked == old(peeked)
      ensures notified == if hasOnModelSelect then [model] else []
    {
      selected := Some(model);
      open := false;
      notified := [];
      if hasOnModelSelect {
        notified := notified + [model];
      }
    }

    /** `onOpenChange`, the popover's own open/close. */
    method SetOpen(value: bool)
      modifies this
      ensures open == value && selected == old(selected) && peeked == old(peeked)
    {
      open := value;
    }

    /** `onPeek`, fired for the item the command list highlights. */
    method Peek(model: ModelInfo)
      modifies this
      ensures peeked == Some(model) && selected == old(selected) && open == old(open)
    {
      peeked := Some(model);
    }

    /** The groups the component renders for its current selection. */
    function Rendered(types: seq<string>, models: seq<ModelInfo>): seq<Group>
      reads this
    {
      Groups(types, models, selected)
    }
  }
}
