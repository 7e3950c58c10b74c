/** The JSON form of a shopping list, as the tree the JSON library would build and read
    back: objects are maps, maps with dot keys are arrays of pairs in key order. */
module Json {
  import opened Order
  import opened Contexts
  import opened Counters
  import opened States

  datatype Tree = Null | Text(text: string) | Number(number: int)
                | Array(items: seq<Tree>) | Object(fields: map<string, Tree>)

  /** A list by value. */
  datatype List = List(id: string, title: string, url: string, state: State)

  function DotTree(d: Dot): Tree {
    Array([Text(d.id), Number(d.number)])
  }

  function CloudTrees(dots: set<Dot>): seq<Tree> {
    match FirstDot(dots)
    case None => []
    case Some(d) => [DotTree(d)] + CloudTrees(dots - {d})
  }

  function ValueTrees(values: Values): seq<Tree> {
    match FirstDot(values.Keys)
    case None => []
    case Some(d) => [Array([DotTree(d), Number(values[d])])] + ValueTrees(values - {d})
  }

  function ClockTree(vc: VectorClock): Tree {
    Object(map id | id in vc :: Number(vc[id]))
  }

  function CtxTree(c: Ctx): Tree {
    Object(map["vc" := ClockTree(c.vc), "dc" := Array(CloudTrees(c.dc))])
  }

  function LiveTree(live: map<string, Values>): Tree {
    Object(map k | k in live :: Array(ValueTrees(live[k])))
  }

  function ListTree(l: List): Tree {
    Object(map["id" := Text(l.id), "title" := Text(l.title), "url" := Text(l.url),
               "items" := Object(map["context" := CtxTree(l.state.ctx), "map" := LiveTree(l.state.live)])])
  }

  /** A pair is read from the first two elements of an array. */
  predicate IsDot(j: Tree) {
    j.Array? && |j.items| >= 2 && j.items[0].Text? && j.items[1].Number? && j.items[1].number >= 0
  }

  function ToDot(j: Tree): Dot
    requires IsDot(j)
  {
    Dot(j.items[0].text, j.items[1].number)
  }

  /** What a loop over a tree goes through. */
  function Elements(j: Tree): set<Tree> {
    match j
    case Null => {}
    case Array(items) => set e | e in items
    case Object(fields) => fields.Values
    case _ => {j}
  }

  predicate IsCloud(j: Tree) {
    forall e :: e in Elements(j) ==> IsDot(e)
  }

  function ToCloud(j: Tree): set<Dot>
    requires IsCloud(j)
  {
    set e | e in Elements(j) :: ToDot(e)
  }

  predicate IsValue(j: Tree) {
    j.Array? && |j.items| >= 2 && IsDot(j.items[0]) && j.items[1].Number?
  }

  predicate IsValues(j: Tree) {
    j.Array? && forall i :: 0 <= i < |j.items| ==> IsValue(j.items[i])
  }

  /** Pairs are inserted one after the other, so the first one with a key stays. */
  function ToValues(items: seq<Tree>): Values
    requires forall i :: 0 <= i < |items| ==> IsValue(items[i])
  {
    if items == [] then map[]
    else
      var last := items[|items| - 1];
      assert IsValue(last);
      Insert(ToValues(items[..|items| - 1]), ToDot(last.items[0]), last.items[1].number)
  }

  predicate IsClock(j: Tree) {
    j.Object? && forall id :: id in j.fields ==> j.fields[id].Number? && j.fields[id].number >= 0
  }

  function ToClock(j: Tree): VectorClock
    requires IsClock(j)
  {
    map id | id in j.fields :: j.fields[id].number
  }

  predicate IsCtx(j: Tree) {
    j.Object? && "vc" in j.fields && "dc" in j.fields && IsClock(j.fields["vc"]) && IsCloud(j.fields["dc"])
  }

  function ToCtx(j: Tree): Ctx
    requires IsCtx(j)
  {
    Ctx(ToClock(j.fields["vc"]), ToCloud(j.fields["dc"]))
  }

  predicate IsLive(j: Tree) {
    j.Object? && forall k :: k in j.fields ==> IsValues(j.fields[k])
  }

  function ToLive(j: Tree): map<string, Values>
    requires IsLive(j)
  {
    map k | k in j.fields :: ToValues(j.fields[k].items)
  }

  predicate IsList(j: Tree) {
    && j.Object? && "id" in j.fields && "title" in j.fields && "url" in j.fields && "items" in j.fields
    && j.fields["id"].Text? && j.fields["title"].Text? && j.fields["url"].Text?
    && j.fields["items"].Object? && "context" in j.fields["items"].fields && "map" in j.fields["items"].fields
    && IsCtx(j.fields["items"].fields["context"]) && IsLive(j.fields["items"].fields["map"])
  }

  /** What a tree says, before the context is compacted. */
  function ToList(j: Tree): List
    requires IsList(j)
  {
    var items := j.fields["items"].fields;
    List(j.fields["id"].text, j.fields["title"].text, j.fields["url"].text,
         State(ToCtx(items["context"]), ToLive(items["map"])))
  }

  /** A text field, empty if it is missing or something else. */
  function TextAt(j: Tree, k: string): string {
    if j.Object? && k in j.fields && j.fields[k].Text? then j.fields[k].text else ""
  }

  /** An object field, if there is one. */
  function ObjectAt(j: Tree, k: string): Option<Tree> {
    if j.Object? && k in j.fields && j.fields[k].Object? then Some(j.fields[k]) else None
  }

  /** One of the two objects inside the items. */
  function Section(j: Tree, k: string): Option<Tree> {
    match ObjectAt(j, "items")
    case None => None
    case Some(items) => ObjectAt(items, k)
  }

  /** Trees that from_json takes for nothing. */
  predicate Blank(j: Tree) {
    j == Null || j == Text("") || j == Array([]) || j == Object(map[])
  }

  /** Trees that from_json reads without an exception. */
  predicate Readable(j: Tree) {
    && (Section(j, "context").Some? ==> IsCtx(Section(j, "context").value))
    && (Section(j, "map").Some? ==> IsLive(Section(j, "map").value))
  }

  function CtxOf(j: Tree): Ctx
    requires Readable(j)
  {
    if Section(j, "context").Some? then ToCtx(Section(j, "context").value) else EMPTY_CTX
  }

  function LiveOf(j: Tree): map<string, Values>
    requires Readable(j)
  {
    if Section(j, "map").Some? then ToLive(Section(j, "map").value) else map[]
  }

  /** No negative dot numbers, and nothing looked up that need not be there: a context has
      its two members, and what is in its cloud has two elements if it has any. */
  ghost predicate Defined(j: Tree) {
    && (Section(j, "context").Some? ==>
      var fields := Section(j, "context").value.fields;
      && "vc" in fields && "dc" in fields
      && (fields["vc"].Object? ==> forall id :: id in fields["vc"].fields ==> NotNegative(fields["vc"].fields[id]))
      && (forall e :: e in Elements(fields["dc"]) ==> DotDefined(e) && (e.Array? ==> |e.items| >= 2)))
    && (Section(j, "map").Some? ==>
      var fields := Section(j, "map").value.fields;
      forall k :: k in fields && fields[k].Array? ==>
        forall e :: e in fields[k].items && e.Array? && e.items != [] ==> DotDefined(e.items[0]))
  }

  predicate NotNegative(j: Tree) {
    j.Number? ==> j.number >= 0
  }

  predicate DotDefined(j: Tree) {
    j.Array? && |j.items| >= 2 ==> NotNegative(j.items[1])
  }

  /** A full tree reads as the list it says. */
  lemma ListIsReadable(j: Tree)
    requires IsList(j)
    ensures !Blank(j) && Readable(j) && Defined(j)
    ensures ToList(j) == List(TextAt(j, "id"), TextAt(j, "title"), TextAt(j, "url"), State(CtxOf(j), LiveOf(j)))
  {
  }

  lemma {:induction false} CloudHolds(dots: set<Dot>)
    ensures forall d :: d in dots ==> DotTree(d) in CloudTrees(dots)
    ensures forall e :: e in CloudTrees(dots) ==> IsDot(e) && ToDot(e) in dots
  {
    var first := FirstDot(dots);
    if first.Some? {
      assert first.value in dots;
      CloudHolds(dots - {first.value});
      assert CloudTrees(dots) == [DotTree(first.value)] + CloudTrees(dots - {first.value});
    }
  }

  lemma {:induction false} CloudRoundTrip(dots: set<Dot>)
    ensures IsCloud(Array(CloudTrees(dots))) && ToCloud(Array(CloudTrees(dots))) == dots
  {
    CloudHolds(dots);
    hide CloudTrees;
    var cloud := Array(CloudTrees(dots));
    forall d | d in dots
      ensures d in ToCloud(cloud)
    {
      assert DotTree(d) in Elements(cloud) && ToDot(DotTree(d)) == d;
    }
  }

  lemma {:induction false} ToValuesOfCons(head: Tree, tail: seq<Tree>)
    requires IsValue(head) && forall i :: 0 <= i < |tail| ==> IsValue(tail[i])
    ensures forall i :: 0 <= i < |[head] + tail| ==> IsValue(([head] + tail)[i])
    ensures ToValues([head] + tail) == ToValues(tail)[ToDot(head.items[0]) := head.items[1].number]
  {
    var all := [head] + tail;
    if tail == [] {
      assert all[..|all| - 1] == [];
    } else {
      assert all[..|all| - 1] == [head] + tail[..|tail| - 1];
      ToValuesOfCons(head, tail[..|tail| - 1]);
    }
  }

  lemma {:induction false} ValuesRoundTrip(values: Values)
    ensures IsValues(Array(ValueTrees(values)))
    ensures ToValues(ValueTrees(values)) == values
    decreases |values|
  {
    var first := FirstDot(values.Keys);
    if first.Some? {
      var d := first.value;
      assert d in values;
      ValuesRoundTrip(values - {d});
      ToValuesOfCons(Array([DotTree(d), Number(values[d])]), ValueTrees(values - {d}));
      assert (values - {d})[d := values[d]] == values;
    }
  }

  /** Writing a list and reading the tree back gives the list. */
  lemma {:induction false} ListRoundTrip(l: List)
    ensures IsList(ListTree(l)) && ToList(ListTree(l)) == l
  {
    CtxRoundTrip(l.state.ctx);
    LiveRoundTrip(l.state.live);
    hide CtxTree, LiveTree, IsCtx, IsLive, ToCtx, ToLive;
  }

  lemma CtxRoundTrip(c: Ctx)
    ensures IsCtx(CtxTree(c)) && ToCtx(CtxTree(c)) == c
  {
    CloudRoundTrip(c.dc);
    hide CloudTrees, IsCloud, ToCloud;
    assert ToClock(ClockTree(c.vc)) == c.vc;
  }

  lemma LiveRoundTrip(live: map<string, Values>)
    ensures IsLive(LiveTree(live)) && ToLive(LiveTree(live)) == live
  {
    hide ValueTrees, ToValues;
    forall k | k in live
      ensures IsValues(Array(ValueTrees(live[k]))) && ToValues(ValueTrees(live[k])) == live[k]
    {
      ValuesRoundTrip(live[k]);
    }
  }

  function DotOfPair(j: Tree): Dot
    requires IsValue(j)
  {
    ToDot(j.items[0])
  }

  /** Of the pairs with one dot the first counts. */
  lemma {:induction false} FirstPairCounts(items: seq<Tree>, i: nat, d: Dot)
    requires forall j :: 0 <= j < |items| ==> IsValue(items[j])
    requires i < |items| && DotOfPair(items[i]) == d && forall j :: 0 <= j < i ==> DotOfPair(items[j]) != d
    ensures d in ToValues(items) && ToValues(items)[d] == items[i].items[1].number
  {
    var init := items[..|items| - 1];
    if i < |init| {
      FirstPairCounts(init, i, d);
    } else {
      ValuesAreRead(init, d);
    }
  }

  /** The dots read are those of the pairs. */
  lemma {:induction false} ValuesAreRead(items: seq<Tree>, d: Dot)
    requires forall i :: 0 <= i < |items| ==> IsValue(items[i])
    ensures d in ToValues(items) <==> exists i :: 0 <= i < |items| && DotOfPair(items[i]) == d
  {
    if items != [] {
      var init := items[..|items| - 1];
      ValuesAreRead(init, d);
      assert forall i :: 0 <= i < |init| ==> init[i] == items[i];
    }
  }

  /** The pairs are written in the order of their dots, which is that of the container. */
  lemma {:induction false} WrittenInOrder(values: Values, i: nat, j: nat)
    requires i < j < |ValueTrees(values)|
    ensures IsValue(ValueTrees(values)[i]) && IsValue(ValueTrees(values)[j])
    ensures DotLess(DotOfPair(ValueTrees(values)[i]), DotOfPair(ValueTrees(values)[j]))
    decreases |values|
  {
    hide *;
    var d := FirstPair(values);
    var rest := ValueTrees(values - {d});
    PairsReadBack(values - {d});
    if i > 0 {
      WrittenInOrder(values - {d}, i - 1, j - 1);
    } else {
      ValuesAreRead(rest, DotOfPair(rest[j - 1]));
    }
  }

  lemma PairsReadBack(values: Values)
    ensures forall i :: 0 <= i < |ValueTrees(values)| ==> IsValue(ValueTrees(values)[i])
    ensures ToValues(ValueTrees(values)) == values
  {
    ValuesRoundTrip(values);
  }

  lemma FirstPair(values: Values) returns (d: Dot)
    requires ValueTrees(values) != []
    ensures d in values && forall e :: e in values && e != d ==> DotLess(d, e)
    ensures ValueTrees(values) == [Array([DotTree(d), Number(values[d])])] + ValueTrees(values - {d})
    ensures IsValue(ValueTrees(values)[0]) && DotOfPair(ValueTrees(values)[0]) == d
  {
    hide StringLess, DotLess;
    d := FirstDot(values.Keys).value;
  }

  /** Pairs are read by their first two elements, whatever follows. */
  lemma {:induction false} PairsAreRead(id: string, n: nat, v: int, more: seq<Tree>, rest: seq<Tree>)
    ensures var d := Array([Text(id), Number(n)] + more);
      && IsDot(d) && ToDot(d) == Dot(id, n)
      && IsValue(Array([d, Number(v)] + rest)) && DotOfPair(Array([d, Number(v)] + rest)) == Dot(id, n)
  {
    var d := Array([Text(id), Number(n)] + more);
    assert d.items[0] == Text(id) && d.items[1] == Number(n);
    assert Array([d, Number(v)] + rest).items[0] == d;
  }

  /** No other tree is a dot, or a dot with its value. */
  lemma {:induction false} PairsAre(j: Tree)
    ensures IsDot(j) ==> j == Array([Text(ToDot(j).id), Number(ToDot(j).number)] + j.items[2..])
    ensures IsValue(j) ==> j == Array([j.items[0], Number(j.items[1].number)] + j.items[2..]) && IsDot(j.items[0])
  {
    if j.Array? && |j.items| >= 2 {
      assert j.items == [j.items[0], j.items[1]] + j.items[2..];
    }
  }

  /** A cloud is nothing at all or has dots only; a text or a number in its place is none. */
  lemma {:induction false} CloudIs(j: Tree)
    ensures IsCloud(j) <==>
      || j == Null
      || (j.Array? && forall i :: 0 <= i < |j.items| ==> IsDot(j.items[i]))
      || (j.Object? && forall k :: k in j.fields ==> IsDot(j.fields[k]))
  {
    if IsCloud(j) {
      assert j.Array? ==> forall i :: 0 <= i < |j.items| ==> j.items[i] in Elements(j);
      assert j.Object? ==> forall k :: k in j.fields ==> j.fields[k] in Elements(j);
      assert j.Text? || j.Number? ==> j in Elements(j);
    }
  }

  /** A list with one item in its written form. */
  lemma {:induction false} OneItemWritten(id: string, title: string, url: string, k: string, d: Dot, v: int)
    ensures ListTree(List(id, title, url, State(Ctx(map[d.id := d.number], {d}), map[k := map[d := v]]))) ==
      Object(map["id" := Text(id), "title" := Text(title), "url" := Text(url), "items" := Object(map[
        "context" := Object(map[
          "vc" := Object(map[d.id := Number(d.number)]),
          "dc" := Array([Array([Text(d.id), Number(d.number)])])]),
        "map" := Object(map[k := Array([Array([Array([Text(d.id), Number(d.number)]), Number(v)])])])])])
  {
    OneDotWritten(d, v);
    assert ClockTree(map[d.id := d.number]) == Object(map[d.id := Number(d.number)]);
    assert LiveTree(map[k := map[d := v]]).fields == map[k := Array([Array([DotTree(d), Number(v)])])];
  }

  lemma OneDotWritten(d: Dot, v: int)
    ensures CloudTrees({d}) == [DotTree(d)] && ValueTrees(map[d := v]) == [Array([DotTree(d), Number(v)])]
  {
    var values: Values := map[d := v];
    assert FirstDot({d}).value in {d} && values.Keys == {d};
    assert {d} - {d} == {} && values - {d} == map[];
    assert FirstDot({}) == None;
  }
}
