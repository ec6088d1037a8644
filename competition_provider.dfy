/**
 * The competition explorer's tree: a fixed, ordered table from competition
 * name to its experiments, projected lazily into a two-level tree of items.
 * Competitions are the roots (collapsed, expandable); experiments are their
 * leaves. Every query builds fresh items; nothing is cached or mutated.
 */
module CompetitionProvider {
  import opened Wrappers

  /** The two kinds of item, `'competition' | 'experiment'`. */
  datatype ItemType = Competition | Experiment

  /** The host's collapsible state of a tree item (None = 0, Collapsed = 1, Expanded = 2). */
  datatype CollapsibleState = NotCollapsible | Collapsed | Expanded

  /** A score, as an integer number of ten-thousandths (0.8012 is 8012). */
  type Score = int

  /** One row of a competition's experiment list: `{ name, score }`. */
  datatype ExperimentRecord = ExperimentRecord(name: string, score: Score)

  /** Competition names paired with their experiment lists, in order. */
  type Table = seq<(string, seq<ExperimentRecord>)>

  /** Object keys are unique: no competition name appears twice. */
  predicate DistinctKeys(table: Table)
  {
    forall i, j :: 0 <= i < j < |table| ==> table[i].0 != table[j].0
  }

  /**
   * The provider's table as an object holds it: one entry per own key, in
   * the order the keys are enumerated, no key twice.
   */
  type Data = table: Table | DistinctKeys(table) witness []

  /**
   * A tree item as the constructor leaves it: the four constructor
   * arguments, then the theme icon id, the context value, the tooltip and
   * whether a score description was set.
   */
  datatype CompetitionItem = CompetitionItem(
    itemLabel: string,
    itemType: ItemType,
    collapsibleState: CollapsibleState,
    score: Option<Score>,
    icon: string,
    contextValue: string,
    tooltip: string,
    hasDescription: bool)

  /** The string spelling of an item type, as used for `contextValue`. */
  function TypeName(t: ItemType): string
  {
    match t
    case Competition => "competition"
    case Experiment => "experiment"
  }

  /** The theme icon id shown for each item type. */
  function IconFor(t: ItemType): string
  {
    match t
    case Competition => "folder"
    case Experiment => "symbol-method"
  }

  /**
   * What every item the constructor builds satisfies: its context value
   * names its type, its tooltip is its label, its icon matches its type,
   * and it carries a description exactly when it is an experiment with a
   * score.
   */
  predicate WellFormed(it: CompetitionItem)
  {
    && it.contextValue == TypeName(it.itemType)
    && it.tooltip == it.itemLabel
    && it.icon == IconFor(it.itemType)
    && (it.hasDescription <==> it.itemType == Experiment && it.score.Some?)
  }

  /**
   * The shape the provider gives the items it builds: competitions are
   * collapsed and carry no score; experiments are leaves with a score.
   */
  predicate TreeShaped(it: CompetitionItem)
  {
    match it.itemType
    case Competition => it.collapsibleState == Collapsed && it.score == None
    case Experiment => it.collapsibleState == NotCollapsible && it.score.Some?
  }

  /** The `CompetitionItem` constructor. */
  function NewItem(text: string, itemType: ItemType, state: CollapsibleState, score: Option<Score>): (r: CompetitionItem)
    ensures WellFormed(r)
    ensures r.itemLabel == text && r.itemType == itemType
    ensures r.collapsibleState == state && r.score == score
  {
    var desc := match itemType
      case Competition => false
      case Experiment => score.Some?;
    CompetitionItem(text, itemType, state, score, IconFor(itemType), TypeName(itemType), text, desc)
  }

  /** `getTreeItem`: the host is handed the item itself. */
  function GetTreeItem(element: CompetitionItem): (r: CompetitionItem)
    ensures r == element
  {
    element
  }

  /** The competition names of the table, in order (`Object.keys`). */
  function Keys(data: Data): (ks: seq<string>)
    ensures |ks| == |data|
    ensures forall i :: 0 <= i < |data| ==> ks[i] == data[i].0
  {
    seq(|data|, i requires 0 <= i < |data| => data[i].0)
  }

  /** Own-property lookup `data[key]`: the list stored under `key`, if `key` is a competition name. */
  function Lookup(data: Data, key: string): (r: Option<seq<ExperimentRecord>>)
    ensures r.None? <==> key !in Keys(data)
    ensures r.Some? ==> exists i :: 0 <= i < |data| && data[i] == (key, r.value)
  {
    if data == [] then None
    else if data[0].0 == key then
      assert Keys(data)[0] == key;
      Some(data[0].1)
    else
      var r := Lookup(data[1..], key);
      assert Keys(data) == [data[0].0] + Keys(data[1..]);
      if r.Some? then
        ghost var i :| 0 <= i < |data[1..]| && data[1..][i] == (key, r.value);
        assert data[i + 1] == (key, r.value);
        r
      else
        r
  }

  /** The root items, `Object.keys(data).map(...)`: one collapsed competition item per key, in key order. */
  function Roots(data: Data): (items: seq<CompetitionItem>)
    ensures |items| == |data|
    ensures forall i :: 0 <= i < |data| ==> items[i] == NewItem(data[i].0, Competition, Collapsed, None)
  {
    var keys := Keys(data);
    seq(|keys|, i requires 0 <= i < |keys| => NewItem(keys[i], Competition, Collapsed, None))
  }

  /** The leaf items of one competition: one experiment item per record, in record order. */
  function ExperimentItems(exps: seq<ExperimentRecord>): (items: seq<CompetitionItem>)
    ensures |items| == |exps|
    ensures forall i :: 0 <= i < |exps| ==> items[i] == NewItem(exps[i].name, Experiment, NotCollapsible, Some(exps[i].score))
  {
    seq(|exps|, i requires 0 <= i < |exps| => NewItem(exps[i].name, Experiment, NotCollapsible, Some(exps[i].score)))
  }

  /**
   * `getChildren`: with no element, the roots; with a competition item, the
   * experiments stored under its label, or none when the label is not a
   * key; with an experiment item, none.
   */
  function GetChildren(data: Data, element: Option<CompetitionItem>): (r: seq<CompetitionItem>)
    ensures element.None? ==>
      && |r| == |data|
      && forall i :: 0 <= i < |r| ==>
           r[i].itemLabel == data[i].0 && r[i].itemType == Competition
           && r[i].collapsibleState == Collapsed && r[i].score == None
    ensures element.Some? && element.value.itemType == Experiment ==> r == []
    ensures element.Some? && element.value.itemLabel !in Keys(data) ==> r == []
    ensures element.Some? ==>
      forall i :: 0 <= i < |r| ==>
        r[i].itemType == Experiment && r[i].collapsibleState == NotCollapsible && r[i].score.Some?
  {
    match element
    case None => Roots(data)
    case Some(e) =>
      if e.itemType == Competition then
        var exps := match Lookup(data, e.itemLabel)
          case Some(list) => list
          case None => [];
        ExperimentItems(exps)
      else
        []
  }

  /** Keys being distinct, looking up the i-th name finds the i-th list. */
  lemma LookupAt(data: Data, i: int)
    requires 0 <= i < |data|
    ensures Lookup(data, data[i].0) == Some(data[i].1)
  {
  }

  /**
   * Expanding a competition item whose label is a key yields that key's
   * experiments, same length and order, each labelled with the record's
   * name and carrying its score.
   */
  lemma ChildrenOfCompetition(data: Data, element: CompetitionItem, i: int)
    requires 0 <= i < |data|
    requires element.itemType == Competition && element.itemLabel == data[i].0
    ensures var r := GetChildren(data, Some(element));
      && |r| == |data[i].1|
      && forall j :: 0 <= j < |r| ==>
           r[j].itemLabel == data[i].1[j].name && r[j].score == Some(data[i].1[j].score)
  {
  }

  /** Every item the provider hands out is well formed and has the tree's shape. */
  lemma ProvidedItemsWellFormed(data: Data, element: Option<CompetitionItem>)
    ensures forall it :: it in GetChildren(data, element) ==> WellFormed(it) && TreeShaped(it)
  {
  }

  /**
   * The tree has exactly two levels: a root's children are the experiments
   * of the i-th table entry, and none of them has children.
   */
  lemma TwoLevels(data: Data, i: int)
    requires 0 <= i < |data|
    ensures var root := GetChildren(data, None)[i];
      && GetChildren(data, Some(root)) == ExperimentItems(data[i].1)
      && forall c :: c in GetChildren(data, Some(root)) ==> GetChildren(data, Some(c)) == []
  {
  }

  /** The sample table the provider is initialised with (scores in ten-thousandths). */
  const SampleData: Data := [
    ("Titanic", [
      ExperimentRecord("exp-001-baseline", 7655),
      ExperimentRecord("exp-002-feature-eng", 7842),
      ExperimentRecord("exp-003-xgboost", 8012)]),
    ("House Prices", [
      ExperimentRecord("exp-001-linear", 1234),
      ExperimentRecord("exp-002-random-forest", 1156)]),
    ("Digit Recognizer", [
      ExperimentRecord("exp-001-cnn", 9912)])
  ]

  /** The sample's roots are its three competitions, and Titanic has its three experiments. */
  lemma SampleTree()
    ensures var roots := GetChildren(SampleData, None);
      && |roots| == 3
      && roots[0].itemLabel == "Titanic" && roots[1].itemLabel == "House Prices" && roots[2].itemLabel == "Digit Recognizer"
      && var titanic := GetChildren(SampleData, Some(roots[0]));
         && |titanic| == 3
         && titanic[0].itemLabel == "exp-001-baseline" && titanic[0].score == Some(7655)
         && titanic[1].itemLabel == "exp-002-feature-eng" && titanic[1].score == Some(7842)
         && titanic[2].itemLabel == "exp-003-xgboost" && titanic[2].score == Some(8012)
  {
  }

  // ---------------------------------------------------------------------
  // The lookup as written: `this.data[label] || []` reads inherited
  // properties too. For a label that names a property of Object.prototype
  // the lookup yields a truthy non-array, and `.map` on it throws.
  // ---------------------------------------------------------------------

  /** The exception raised by calling `.map` on a value that has no such method. */
  datatype Thrown = TypeError

  /** Property names every plain object inherits from Object.prototype. */
  const ObjectPrototypeProperties: set<string> := {
    "constructor", "__proto__", "toString", "toLocaleString", "valueOf",
    "hasOwnProperty", "isPrototypeOf", "propertyIsEnumerable",
    "__defineGetter__", "__defineSetter__", "__lookupGetter__", "__lookupSetter__"
  }

  /** `getChildren` as written, including the inherited-property lookup. */
  function GetChildrenAsWritten(data: Data, element: Option<CompetitionItem>): (r: Result<seq<CompetitionItem>, Thrown>)
    ensures r.Err? <==>
      element.Some? && element.value.itemType == Competition
      && element.value.itemLabel !in Keys(data) && element.value.itemLabel in ObjectPrototypeProperties
  {
    match element
    case None => Ok(Roots(data))
    case Some(e) =>
      if e.itemType == Competition then
        match Lookup(data, e.itemLabel)
        case Some(exps) => Ok(ExperimentItems(exps))
        case None => if e.itemLabel in ObjectPrototypeProperties then Err(TypeError) else Ok([])
      else
        Ok([])
  }

  /** Wherever the code as written does not throw, it agrees with the corrected lookup. */
  lemma AsWrittenAgreesElsewhere(data: Data, element: Option<CompetitionItem>)
    requires GetChildrenAsWritten(data, element).Ok?
    ensures GetChildrenAsWritten(data, element) == Ok(GetChildren(data, element))
  {
  }

  /**
   * The crash cannot be reached from the view: every item the provider
   * builds, when expanded, gives the same children either way.
   */
  lemma AsWrittenAgreesOnProvidedItems(data: Data, parent: Option<CompetitionItem>, it: CompetitionItem)
    requires it in GetChildren(data, parent)
    ensures GetChildrenAsWritten(data, Some(it)) == Ok(GetChildren(data, Some(it)))
  {
  }

  /** A competition item labelled "toString" throws as written, but has no children once corrected. */
  lemma AsWrittenThrowsOnInheritedName()
    ensures var e := NewItem("toString", Competition, Collapsed, None);
      && GetChildrenAsWritten(SampleData, Some(e)) == Err(TypeError)
      && GetChildren(SampleData, Some(e)) == []
  {
  }
}
