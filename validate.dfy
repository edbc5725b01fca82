/**
 * validate.rb: the check that the parameters of every endpoint of the Kill Bill API description
 * come in the expected order. Locations go path, body, query, header; the recognised query names
 * and the recognised header names each keep a fixed relative order. Each endpoint is walked with
 * its own last-seen location and names, and every violation appends one message to `errors`.
 */
module Validate {
  import opened Wrappers

  /**
   * create_ordered_map: each entry of the list maps to its position. A repeated entry keeps the
   * position of its last occurrence, since later assignments overwrite earlier ones.
   */
  function CreateOrderedMap(input: seq<string>): (m: map<string, nat>)
    ensures forall x :: x in m <==> x in input
    ensures forall x :: x in m ==> m[x] < |input| && input[m[x]] == x
    ensures forall x, j :: x in m && m[x] < j < |input| ==> input[j] != x
  {
    if input == [] then map[]
    else CreateOrderedMap(input[..|input| - 1])[input[|input| - 1] := |input| - 1]
  }

  /** On a list without repetitions, each entry maps to its own position. */
  lemma OrderedMapPositions(input: seq<string>)
    requires forall i, j :: 0 <= i < j < |input| ==> input[i] != input[j]
    ensures forall i :: 0 <= i < |input| ==> CreateOrderedMap(input)[input[i]] == i
  {
    var m := CreateOrderedMap(input);
    forall i | 0 <= i < |input|
      ensures m[input[i]] == i
    {
      var k := m[input[i]];
      assert input[k] == input[i];
    }
  }

  /** The lists the three tables are built from, in the order the script expects. */
  const ParamTypes := ["path", "body", "query", "header"]
  const QueryNames := ["controlPluginName", "pluginProperty", "audit"]
  const HeaderNames := ["X-Killbill-CreatedBy", "X-Killbill-Reason", "X-Killbill-Comment", "X-Killbill-ApiKey",
                        "X-Killbill-ApiSecret"]

  const ParamTypeOrdering := CreateOrderedMap(ParamTypes)
  const ParamTypeQueryNameOrdering := CreateOrderedMap(QueryNames)
  const ParamTypeHeaderNameOrdering := CreateOrderedMap(HeaderNames)

  /** The three ordering tables. */
  datatype Tables = Tables(types: map<string, nat>, queryNames: map<string, nat>, headerNames: map<string, nat>)

  const Orderings := Tables(ParamTypeOrdering, ParamTypeQueryNameOrdering, ParamTypeHeaderNameOrdering)

  /** The location ranks: path 0, body 1, query 2, header 3; no other location is ranked. */
  lemma TypeRanks()
    ensures ParamTypeOrdering.Keys == {"path", "body", "query", "header"}
    ensures forall i :: 0 <= i < |ParamTypes| ==> ParamTypeOrdering[ParamTypes[i]] == i
  {
    var p := ParamTypes;
    assert |p[0]| == 4 && |p[1]| == 4 && |p[2]| == 5 && |p[3]| == 6 && p[0][0] == 'p' && p[1][0] == 'b';
    OrderedMapPositions(p);
    KeysOfFour(ParamTypeOrdering, p);
  }

  /** The query-name ranks: controlPluginName 0, pluginProperty 1, audit 2; no other name is ranked. */
  lemma QueryNameRanks()
    ensures ParamTypeQueryNameOrdering.Keys == {"controlPluginName", "pluginProperty", "audit"}
    ensures forall i :: 0 <= i < |QueryNames| ==> ParamTypeQueryNameOrdering[QueryNames[i]] == i
  {
    var q := QueryNames;
    assert |q[0]| == 17 && |q[1]| == 14 && |q[2]| == 5;
    OrderedMapPositions(q);
    KeysOfThree(ParamTypeQueryNameOrdering, q);
  }

  /** The header-name ranks: CreatedBy 0, Reason 1, Comment 2, ApiKey 3, ApiSecret 4; no other name is ranked. */
  lemma HeaderNameRanks()
    ensures ParamTypeHeaderNameOrdering.Keys ==
      {"X-Killbill-CreatedBy", "X-Killbill-Reason", "X-Killbill-Comment", "X-Killbill-ApiKey", "X-Killbill-ApiSecret"}
    ensures forall i :: 0 <= i < |HeaderNames| ==> ParamTypeHeaderNameOrdering[HeaderNames[i]] == i
  {
    HeaderNamesDistinct();
    OrderedMapPositions(HeaderNames);
    KeysOfFive(ParamTypeHeaderNameOrdering, HeaderNames);
  }

  /** A table whose keys are the entries of a three-entry list has exactly those three keys. */
  lemma KeysOfThree(m: map<string, nat>, h: seq<string>)
    requires |h| == 3 && forall x :: x in m <==> x in h
    ensures m.Keys == {h[0], h[1], h[2]}
  {
    assert forall x :: x in h <==> x == h[0] || x == h[1] || x == h[2];
  }

  /** A table whose keys are the entries of a four-entry list has exactly those four keys. */
  lemma KeysOfFour(m: map<string, nat>, h: seq<string>)
    requires |h| == 4 && forall x :: x in m <==> x in h
    ensures m.Keys == {h[0], h[1], h[2], h[3]}
  {
    assert forall x :: x in h <==> x == h[0] || x == h[1] || x == h[2] || x == h[3];
  }

  /** A table whose keys are the entries of a five-entry list has exactly those five keys. */
  lemma KeysOfFive(m: map<string, nat>, h: seq<string>)
    requires |h| == 5 && forall x :: x in m <==> x in h
    ensures m.Keys == {h[0], h[1], h[2], h[3], h[4]}
  {
    assert forall x :: x in h <==> x == h[0] || x == h[1] || x == h[2] || x == h[3] || x == h[4];
  }

  /** The five header names are different: by length, or by their first letter after the prefix. */
  lemma HeaderNamesDistinct()
    ensures forall i, j :: 0 <= i < j < |HeaderNames| ==> HeaderNames[i] != HeaderNames[j]
  {
    var h := HeaderNames;
    assert |h[0]| == 20 && |h[1]| == 17 && |h[2]| == 18 && |h[3]| == 17 && |h[4]| == 20;
    assert h[0][11] == 'C' && h[1][11] == 'R' && h[3][11] == 'A' && h[4][11] == 'A';
  }

  /** One entry of an endpoint's `parameters`: its `in` and its `name`. */
  datatype Param = Param(location: string, name: string)

  /** One operation of a path: its HTTP verb and its parameter list, nil when the key is missing. */
  datatype Endpoint = Endpoint(verb: string, parameters: Option<seq<Param>>)

  /** One entry of `paths`. */
  datatype PathItem = PathItem(pathname: string, endpoints: seq<Endpoint>)

  /** An ordering violation: the parameter, and the location or name it should not come before. */
  datatype Violation =
    | TypeOrder(param: Param, before: string)
    | QueryNameOrder(param: Param, before: string)
    | HeaderNameOrder(param: Param, before: string)

  /** The message appended to `errors` for a violation. */
  function Message(pathname: string, endpoint: string, v: Violation): (r: string)
  {
    var at := "pathname=" + pathname + ", endpoint=" + endpoint + ", param=" + v.param.name + ": ";
    match v
    case TypeOrder(p, before) =>
      "Parameter Type Validation Error: " + at + "type = " + p.location + " should not come before type " + before
    case QueryNameOrder(p, before) =>
      "Parameter Query Name Validation Error: " + at + p.name + " should not come before " + before
    case HeaderNameOrder(p, before) =>
      "Parameter Header Name Validation Error: " + at + p.name + " should not come before " + before
  }

  /** The messages for a list of violations, in order. */
  function Messages(pathname: string, endpoint: string, vs: seq<Violation>): (r: seq<string>)
    ensures |r| == |vs|
  {
    if vs == [] then [] else Messages(pathname, endpoint, vs[..|vs| - 1]) + [Message(pathname, endpoint, vs[|vs| - 1])]
  }

  /** Message i is the message of violation i. */
  lemma {:induction false} MessagesAt(pathname: string, endpoint: string, vs: seq<Violation>, i: int)
    requires 0 <= i < |vs|
    ensures Messages(pathname, endpoint, vs)[i] == Message(pathname, endpoint, vs[i])
    decreases |vs|
  {
    if i < |vs| - 1 {
      var init := vs[..|vs| - 1];
      MessagesAt(pathname, endpoint, init, i);
      assert init[i] == vs[i];
    }
  }

  /** The walk's state: `cur_type`, `cur_qname` and `cur_hname`. */
  datatype State = State(curType: Option<string>, curQName: Option<string>, curHName: Option<string>)

  /** The state each endpoint starts from. */
  const Initial := State(None, None, None)

  /** Every last-seen location or name is one its table ranks. */
  predicate WellFormed(t: Tables, s: State) {
    && (s.curType.Some? ==> s.curType.value in t.types)
    && (s.curQName.Some? ==> s.curQName.value in t.queryNames)
    && (s.curHName.Some? ==> s.curHName.value in t.headerNames)
  }

  /**
   * The name check of a query or header parameter: a recognised name is compared with the last
   * recognised one, if any, and becomes the last one; any other name changes nothing. Returns
   * the new last name and the name the parameter should not come before, if it violates the order.
   */
  function NameStep(table: map<string, nat>, cur: Option<string>, name: string): (r: (Option<string>, Option<string>))
    requires cur.Some? ==> cur.value in table
    ensures name !in table ==> r == (cur, None)
    ensures name in table ==> r.0 == Some(name)
    ensures r.1.Some? <==> name in table && cur.Some? && table[name] < table[cur.value]
    ensures r.1.Some? ==> r.1 == cur
  {
    var first := if cur.None? && name in table then Some(name) else cur;
    if first.Some? && name in table then (Some(name), if table[name] < table[first.value] then first else None)
    else (first, None)
  }

  /**
   * What one parameter violates: the location it should not come before, and the query or header
   * name it should not come before, each when there is one.
   */
  datatype Findings = Findings(typeBefore: Option<string>, queryBefore: Option<string>, headerBefore: Option<string>)

  /** The violations of one parameter, in the order their messages are appended. */
  function Violations(p: Param, f: Findings): (vs: seq<Violation>)
    ensures |vs| == (if f.typeBefore.Some? then 1 else 0) + (if f.queryBefore.Some? then 1 else 0) +
                    (if f.headerBefore.Some? then 1 else 0)
    ensures forall v :: v in vs ==> v.param == p
    ensures forall x :: TypeOrder(p, x) in vs <==> f.typeBefore == Some(x)
    ensures forall x :: QueryNameOrder(p, x) in vs <==> f.queryBefore == Some(x)
    ensures forall x :: HeaderNameOrder(p, x) in vs <==> f.headerBefore == Some(x)
  {
    var a := if f.typeBefore.Some? then [TypeOrder(p, f.typeBefore.value)] else [];
    var b := if f.queryBefore.Some? then [QueryNameOrder(p, f.queryBefore.value)] else [];
    var c := if f.headerBefore.Some? then [HeaderNameOrder(p, f.headerBefore.value)] else [];
    assert forall v :: v in a + b + c <==> v in a || v in b || v in c;
    a + b + c
  }

  /** One step of the walk: either the rank comparison raises, or a new state and what the parameter violates. */
  datatype Step = Crash | Next(state: State, found: Findings)

  /**
   * The loop body of validate_arguments for one parameter. A location the table does not rank
   * makes the rank comparison raise (it compares nil). A parameter is at one location, so it
   * cannot violate both name orders.
   */
  function StepParam(t: Tables, s: State, p: Param, first: bool): (r: Step)
    requires WellFormed(t, s) && (first || s.curType.Some?)
    ensures r.Crash? <==> p.location !in t.types
    ensures r.Next? ==> WellFormed(t, r.state) && r.state.curType == Some(p.location)
    ensures r.Next? ==> r.found.queryBefore.None? || r.found.headerBefore.None?
  {
    if p.location !in t.types then Crash
    else
      var cur := if first then p.location else s.curType.value;
      var typeBefore := if t.types[p.location] < t.types[cur] then Some(cur) else None;
      var (q, qBefore) := if p.location == "query" then NameStep(t.queryNames, s.curQName, p.name) else (s.curQName, None);
      var (h, hBefore) := if p.location == "header" then NameStep(t.headerNames, s.curHName, p.name) else (s.curHName, None);
      Next(State(Some(p.location), q, h), Findings(typeBefore, qBefore, hBefore))
  }

  /** The walk over an endpoint's parameters so far. */
  datatype Walk = Walk(state: State, violations: seq<Violation>, crashed: bool)

  /** Every parameter's location is ranked. */
  predicate KnownLocations(t: Tables, ps: seq<Param>) {
    forall i :: 0 <= i < |ps| ==> ps[i].location in t.types
  }

  /**
   * The walk over a parameter list, from the initial state: it stops at the first parameter
   * whose location is not ranked, and otherwise ends on the last parameter's location.
   */
  function WalkParams(t: Tables, ps: seq<Param>): (r: Walk)
    ensures WellFormed(t, r.state)
    ensures r.crashed <==> !KnownLocations(t, ps)
    ensures !r.crashed && ps != [] ==> r.state.curType == Some(ps[|ps| - 1].location)
    ensures |r.violations| <= 2 * |ps|
  {
    if ps == [] then Walk(Initial, [], false)
    else
      var init := ps[..|ps| - 1];
      assert forall i :: 0 <= i < |init| ==> init[i] == ps[i];
      Extend(t, WalkParams(t, init), ps[|ps| - 1], init == [])
  }

  /** The walk after one more parameter: a walk that has stopped stays stopped. */
  function Extend(t: Tables, before: Walk, p: Param, first: bool): (r: Walk)
    requires WellFormed(t, before.state) && (first || before.crashed || before.state.curType.Some?)
    ensures WellFormed(t, r.state)
    ensures r.crashed <==> before.crashed || p.location !in t.types
    ensures !r.crashed ==> r.state.curType == Some(p.location)
    ensures |r.violations| <= |before.violations| + 2
  {
    if before.crashed then before
    else
      match StepParam(t, before.state, p, first)
      case Crash => Walk(before.state, before.violations, true)
      case Next(s, found) => Walk(s, before.violations + Violations(p, found), false)
  }

  /** What the walk finds for parameter p after the parameters ps. */
  function Added(t: Tables, ps: seq<Param>, p: Param): (r: Step)
    requires KnownLocations(t, ps)
  {
    StepParam(t, WalkParams(t, ps).state, p, ps == [])
  }

  /** One more parameter: the walk extends its violations by those the parameter adds. */
  lemma WalkSnoc(t: Tables, ps: seq<Param>, p: Param)
    requires KnownLocations(t, ps)
    ensures Added(t, ps, p).Next? ==>
      WalkParams(t, ps + [p]) ==
        Walk(Added(t, ps, p).state, WalkParams(t, ps).violations + Violations(p, Added(t, ps, p).found), false)
    ensures Added(t, ps, p).Crash? ==> WalkParams(t, ps + [p]) == Walk(WalkParams(t, ps).state, WalkParams(t, ps).violations, true)
  {
    assert (ps + [p])[..|ps|] == ps;
  }

  /** Parameter i of ps is at location loc and has a name the table ranks. */
  predicate Named(ps: seq<Param>, i: int, loc: string, table: map<string, nat>)
    requires 0 <= i < |ps|
  {
    ps[i].location == loc && ps[i].name in table
  }

  /** The position of the last parameter at `loc` whose name the table ranks. */
  function LastNamed(ps: seq<Param>, loc: string, table: map<string, nat>): (r: Option<nat>)
    ensures r.Some? ==> r.value < |ps| && Named(ps, r.value, loc, table)
    ensures r.Some? ==> forall j :: r.value < j < |ps| ==> !Named(ps, j, loc, table)
    ensures r.None? ==> forall j :: 0 <= j < |ps| ==> !Named(ps, j, loc, table)
  {
    if ps == [] then None
    else if Named(ps, |ps| - 1, loc, table) then Some(|ps| - 1)
    else
      var init := ps[..|ps| - 1];
      var r := LastNamed(init, loc, table);
      assert forall j :: 0 <= j < |init| ==> Named(init, j, loc, table) == Named(ps, j, loc, table);
      r
  }

  /** The name at a position, if any. */
  function NameAt(ps: seq<Param>, k: Option<nat>): Option<string>
    requires k.Some? ==> k.value < |ps|
  {
    if k.None? then None else Some(ps[k.value].name)
  }

  /** `cur_qname` and `cur_hname` are the names of the last recognised query and header parameters. */
  lemma {:induction false} WalkNames(t: Tables, ps: seq<Param>)
    requires KnownLocations(t, ps)
    ensures WalkParams(t, ps).state.curQName == NameAt(ps, LastNamed(ps, "query", t.queryNames))
    ensures WalkParams(t, ps).state.curHName == NameAt(ps, LastNamed(ps, "header", t.headerNames))
  {
    if ps != [] {
      var init := ps[..|ps| - 1];
      var p := ps[|ps| - 1];
      assert init + [p] == ps;
      WalkNames(t, init);
      WalkSnoc(t, init, p);
      LastNamedSnoc(init, p, "query", t.queryNames);
      LastNamedSnoc(init, p, "header", t.headerNames);
    }
  }

  /** One more parameter is the last recognised one exactly when it is recognised itself. */
  lemma LastNamedSnoc(ps: seq<Param>, p: Param, loc: string, table: map<string, nat>)
    ensures LastNamed(ps + [p], loc, table) ==
      if p.location == loc && p.name in table then Some(|ps|) else LastNamed(ps, loc, table)
    ensures p.location == loc && p.name in table ==> NameAt(ps + [p], Some(|ps|)) == Some(p.name)
    ensures NameAt(ps + [p], LastNamed(ps, loc, table)) == NameAt(ps, LastNamed(ps, loc, table))
  {
    assert (ps + [p])[..|ps|] == ps;
  }

  /**
   * A parameter violates the location order exactly when it follows a parameter of higher rank,
   * and then names that parameter's location; the first parameter never does.
   */
  lemma TypeViolationIff(t: Tables, ps: seq<Param>, p: Param)
    requires KnownLocations(t, ps) && p.location in t.types
    ensures Added(t, ps, p).Next?
    ensures var before := Added(t, ps, p).found.typeBefore;
      && (before.Some? <==> ps != [] && t.types[p.location] < t.types[ps[|ps| - 1].location])
      && (before.Some? ==> before.value == ps[|ps| - 1].location)
  {
  }

  /**
   * A query parameter with a recognised name violates the query-name order exactly when the
   * last recognised query parameter before it ranks higher, and then names that parameter; no
   * other parameter does.
   */
  lemma QueryNameViolationIff(t: Tables, ps: seq<Param>, p: Param)
    requires KnownLocations(t, ps) && p.location in t.types
    ensures Added(t, ps, p).Next?
    ensures var k := LastNamed(ps, "query", t.queryNames);
      var before := Added(t, ps, p).found.queryBefore;
      && (before.Some? <==>
            p.location == "query" && p.name in t.queryNames && k.Some? &&
            t.queryNames[p.name] < t.queryNames[ps[k.value].name])
      && (before.Some? ==> before.value == ps[k.value].name)
  {
    WalkNames(t, ps);
  }

  /**
   * A header parameter with a recognised name violates the header-name order exactly when the
   * last recognised header parameter before it ranks higher, and then names that parameter; no
   * other parameter does.
   */
  lemma HeaderNameViolationIff(t: Tables, ps: seq<Param>, p: Param)
    requires KnownLocations(t, ps) && p.location in t.types
    ensures Added(t, ps, p).Next?
    ensures var k := LastNamed(ps, "header", t.headerNames);
      var before := Added(t, ps, p).found.headerBefore;
      && (before.Some? <==>
            p.location == "header" && p.name in t.headerNames && k.Some? &&
            t.headerNames[p.name] < t.headerNames[ps[k.value].name])
      && (before.Some? ==> before.value == ps[k.value].name)
  {
    WalkNames(t, ps);
  }

  /** A name the tables do not rank raises no name violation and leaves the last names as they were. */
  lemma UnknownNameIgnored(t: Tables, ps: seq<Param>, p: Param)
    requires KnownLocations(t, ps) && p.location in t.types
    requires p.name !in t.queryNames && p.name !in t.headerNames
    ensures Added(t, ps, p).Next?
    ensures Added(t, ps, p).found.queryBefore.None? && Added(t, ps, p).found.headerBefore.None?
    ensures Added(t, ps, p).state.curQName == WalkParams(t, ps).state.curQName
    ensures Added(t, ps, p).state.curHName == WalkParams(t, ps).state.curHName
  {
  }

  /** The locations never decrease in rank. */
  predicate TypesSorted(t: Tables, ps: seq<Param>)
    requires KnownLocations(t, ps)
  {
    forall i, j :: 0 <= i < j < |ps| ==> t.types[ps[i].location] <= t.types[ps[j].location]
  }

  /** The recognised names at `loc` never decrease in rank. */
  predicate NamesSorted(ps: seq<Param>, loc: string, table: map<string, nat>) {
    forall i, j :: 0 <= i < j < |ps| && Named(ps, i, loc, table) && Named(ps, j, loc, table) ==>
      table[ps[i].name] <= table[ps[j].name]
  }

  /** The parameter order validate_arguments expects. */
  predicate WellOrdered(t: Tables, ps: seq<Param>)
    requires KnownLocations(t, ps)
  {
    TypesSorted(t, ps) && NamesSorted(ps, "query", t.queryNames) && NamesSorted(ps, "header", t.headerNames)
  }

  /** An endpoint whose locations are all ranked gets no violation exactly when its parameters are well ordered. */
  lemma {:induction false} NoViolationsIffWellOrdered(t: Tables, ps: seq<Param>)
    requires KnownLocations(t, ps)
    ensures WalkParams(t, ps).violations == [] <==> WellOrdered(t, ps)
  {
    if ps != [] {
      var init := ps[..|ps| - 1];
      var p := ps[|ps| - 1];
      assert init + [p] == ps;
      assert forall j :: 0 <= j < |init| ==> init[j] == ps[j];
      NoViolationsIffWellOrdered(t, init);
      WalkSnoc(t, init, p);
      TypeViolationIff(t, init, p);
      QueryNameViolationIff(t, init, p);
      HeaderNameViolationIff(t, init, p);
      TypesSortedSnoc(t, init, p);
      NamesSortedSnoc(init, p, "query", t.queryNames);
      NamesSortedSnoc(init, p, "header", t.headerNames);
    }
  }

  /** One more location keeps the locations sorted exactly when it ranks at least as high as the last one. */
  lemma TypesSortedSnoc(t: Tables, ps: seq<Param>, p: Param)
    requires KnownLocations(t, ps) && p.location in t.types
    ensures KnownLocations(t, ps + [p])
    ensures TypesSorted(t, ps + [p]) <==>
      TypesSorted(t, ps) && (ps != [] ==> t.types[ps[|ps| - 1].location] <= t.types[p.location])
  {
    var qs := ps + [p];
    assert forall i :: 0 <= i < |ps| ==> qs[i] == ps[i];
    assert qs[|ps|] == p;
    if TypesSorted(t, ps) && (ps != [] ==> t.types[ps[|ps| - 1].location] <= t.types[p.location]) {
      forall i, j | 0 <= i < j < |qs|
        ensures t.types[qs[i].location] <= t.types[qs[j].location]
      {
        if j == |ps| && i < |ps| - 1 {
          assert t.types[ps[i].location] <= t.types[ps[|ps| - 1].location];
        }
      }
    }
  }

  /** The last recognised name ranks at least as high as every recognised name when they are sorted. */
  lemma LastNamedIsMax(ps: seq<Param>, loc: string, table: map<string, nat>)
    requires NamesSorted(ps, loc, table)
    ensures var k := LastNamed(ps, loc, table);
      forall i :: 0 <= i < |ps| && Named(ps, i, loc, table) ==> k.Some? && table[ps[i].name] <= table[ps[k.value].name]
  {
    var k := LastNamed(ps, loc, table);
    forall i | 0 <= i < |ps| && Named(ps, i, loc, table)
      ensures k.Some? && table[ps[i].name] <= table[ps[k.value].name]
    {
      assert k.Some?;
      if i < k.value {
        assert Named(ps, k.value, loc, table);
      }
    }
  }

  /**
   * One more parameter keeps the recognised names sorted exactly when it is not a recognised one,
   * or it ranks at least as high as the last recognised one.
   */
  lemma NamesSortedSnoc(ps: seq<Param>, p: Param, loc: string, table: map<string, nat>)
    ensures var k := LastNamed(ps, loc, table);
      NamesSorted(ps + [p], loc, table) <==>
        NamesSorted(ps, loc, table) &&
        (p.location == loc && p.name in table && k.Some? ==> table[ps[k.value].name] <= table[p.name])
  {
    var qs := ps + [p];
    var k := LastNamed(ps, loc, table);
    assert forall i :: 0 <= i < |ps| ==> qs[i] == ps[i];
    assert qs[|ps|] == p;
    assert forall i :: 0 <= i < |ps| ==> Named(qs, i, loc, table) == Named(ps, i, loc, table);
    if NamesSorted(qs, loc, table) {
      assert NamesSorted(ps, loc, table) by {
        forall i, j | 0 <= i < j < |ps| && Named(ps, i, loc, table) && Named(ps, j, loc, table)
          ensures table[ps[i].name] <= table[ps[j].name]
        {
          assert Named(qs, i, loc, table) && Named(qs, j, loc, table);
        }
      }
      if p.location == loc && p.name in table && k.Some? {
        assert Named(qs, k.value, loc, table) && Named(qs, |ps|, loc, table);
      }
    }
    if NamesSorted(ps, loc, table) &&
       (p.location == loc && p.name in table && k.Some? ==> table[ps[k.value].name] <= table[p.name]) {
      LastNamedIsMax(ps, loc, table);
      forall i, j | 0 <= i < j < |qs| && Named(qs, i, loc, table) && Named(qs, j, loc, table)
        ensures table[qs[i].name] <= table[qs[j].name]
      {
        if j < |ps| {
          assert Named(ps, i, loc, table) && Named(ps, j, loc, table);
        } else {
          assert Named(ps, i, loc, table);
        }
      }
    }
  }

  // ---------------------------------------------------------------------------------------------
  // The whole description.

  /** What validate_arguments leaves: the messages it appended and whether it raised. */
  datatype Report = Report(messages: seq<string>, crashed: bool)

  /** Carry on with `next` unless `done` raised. */
  function Then(done: Report, next: Report): (r: Report)
    ensures done.crashed ==> r == done
    ensures !done.crashed ==> r.messages == done.messages + next.messages && r.crashed == next.crashed
  {
    if done.crashed then done else Report(done.messages + next.messages, next.crashed)
  }

  /**
   * One endpoint, walked from the initial state: a missing parameter list raises
   * (`each_with_index` on nil); otherwise the messages of its violations.
   */
  function EndpointReport(t: Tables, pathname: string, e: Endpoint): (r: Report)
    ensures e.parameters.None? ==> r == Report([], true)
    ensures e.parameters.Some? ==> r.crashed == !KnownLocations(t, e.parameters.value)
  {
    if e.parameters.None? then Report([], true)
    else
      var w := WalkParams(t, e.parameters.value);
      Report(Messages(pathname, e.verb, w.violations), w.crashed)
  }

  /** An endpoint whose locations are all ranked reports nothing exactly when it is well ordered. */
  lemma EndpointSilentIff(t: Tables, pathname: string, e: Endpoint)
    requires e.parameters.Some? && KnownLocations(t, e.parameters.value)
    ensures EndpointReport(t, pathname, e).messages == [] <==> WellOrdered(t, e.parameters.value)
  {
    NoViolationsIffWellOrdered(t, e.parameters.value);
  }

  /** The endpoints of one path, in order, until one raises. */
  function EndpointsReport(t: Tables, pathname: string, es: seq<Endpoint>): Report {
    if es == [] then Report([], false)
    else Then(EndpointsReport(t, pathname, es[..|es| - 1]), EndpointReport(t, pathname, es[|es| - 1]))
  }

  /** The paths, in order, until an endpoint raises. */
  function PathsReport(t: Tables, paths: seq<PathItem>): Report {
    if paths == [] then Report([], false)
    else Then(PathsReport(t, paths[..|paths| - 1]), EndpointsReport(t, paths[|paths| - 1].pathname, paths[|paths| - 1].endpoints))
  }

  /** Every endpoint has a parameter list of ranked, well-ordered parameters. */
  predicate EndpointValid(t: Tables, e: Endpoint) {
    e.parameters.Some? && KnownLocations(t, e.parameters.value) && WellOrdered(t, e.parameters.value)
  }

  /** One endpoint passes silently exactly when it is valid. */
  lemma EndpointPassIff(t: Tables, pathname: string, e: Endpoint)
    ensures EndpointReport(t, pathname, e) == Report([], false) <==> EndpointValid(t, e)
  {
    if e.parameters.Some? && KnownLocations(t, e.parameters.value) {
      EndpointSilentIff(t, pathname, e);
    }
  }

  /** Two reports in sequence pass silently exactly when both do. */
  lemma ThenPassIff(done: Report, next: Report)
    ensures Then(done, next) == Report([], false) <==> done == Report([], false) && next == Report([], false)
  {
  }

  /** The endpoints of a path pass silently exactly when each of them is valid. */
  lemma {:induction false} EndpointsPassIff(t: Tables, pathname: string, es: seq<Endpoint>)
    ensures EndpointsReport(t, pathname, es) == Report([], false) <==> forall i :: 0 <= i < |es| ==> EndpointValid(t, es[i])
  {
    if es != [] {
      var init := es[..|es| - 1];
      var last := es[|es| - 1];
      EndpointsPassIff(t, pathname, init);
      EndpointPassIff(t, pathname, last);
      ThenPassIff(EndpointsReport(t, pathname, init), EndpointReport(t, pathname, last));
      if EndpointsReport(t, pathname, es) == Report([], false) {
        forall i | 0 <= i < |es|
          ensures EndpointValid(t, es[i])
        {
          if i < |init| {
            assert init[i] == es[i];
          }
        }
      } else if EndpointsReport(t, pathname, init) != Report([], false) {
        var i :| 0 <= i < |init| && !EndpointValid(t, init[i]);
        assert es[i] == init[i];
      } else {
        assert !EndpointValid(t, es[|es| - 1]);
      }
    }
  }

  /** validate_arguments reports nothing and does not raise exactly when every endpoint is valid. */
  lemma {:induction false} PathsPassIff(t: Tables, paths: seq<PathItem>)
    ensures PathsReport(t, paths) == Report([], false) <==>
      forall i, j :: 0 <= i < |paths| && 0 <= j < |paths[i].endpoints| ==> EndpointValid(t, paths[i].endpoints[j])
  {
    if paths != [] {
      var init := paths[..|paths| - 1];
      var last := paths[|paths| - 1];
      PathsPassIff(t, init);
      EndpointsPassIff(t, last.pathname, last.endpoints);
      ThenPassIff(PathsReport(t, init), EndpointsReport(t, last.pathname, last.endpoints));
      if PathsReport(t, paths) == Report([], false) {
        forall i, j | 0 <= i < |paths| && 0 <= j < |paths[i].endpoints|
          ensures EndpointValid(t, paths[i].endpoints[j])
        {
          if i < |init| {
            assert init[i] == paths[i];
          }
        }
      } else if PathsReport(t, init) != Report([], false) {
        var i, j :| 0 <= i < |init| && 0 <= j < |init[i].endpoints| && !EndpointValid(t, init[i].endpoints[j]);
        assert paths[i] == init[i];
      } else {
        var j :| 0 <= j < |last.endpoints| && !EndpointValid(t, last.endpoints[j]);
        assert paths[|paths| - 1].endpoints[j] == last.endpoints[j];
      }
    }
  }

  // ---------------------------------------------------------------------------------------------
  // The script's loops.

  /** The `errors` array, which validate_arguments only appends to. */
  class ErrorLog {
    var entries: seq<string>
  }

  /**
   * The loop body for parameter `idx`, on the local variables cur_type, cur_qname and cur_hname:
   * appends the messages of the violations it finds, or reports that the rank comparison raised.
   */
  method CheckParameter(t: Tables, pathname: string, endpoint: string, idx: nat, p: Param, s: State, errors: ErrorLog)
    returns (r: Option<State>)
    requires WellFormed(t, s) && (idx == 0 || s.curType.Some?)
    modifies errors
    ensures var step := StepParam(t, s, p, idx == 0);
      && (r.None? <==> step.Crash?)
      && (r.Some? ==> r.value == step.state && errors.entries == old(errors.entries) + Messages(pathname, endpoint, Violations(p, step.found)))
      && (r.None? ==> errors.entries == old(errors.entries))
  {
    var curType := s.curType;
    var curQName := s.curQName;
    var curHName := s.curHName;
    ghost var found := Findings(None, None, None);
    assert errors.entries == old(errors.entries) + Messages(pathname, endpoint, Violations(p, found));
    if idx == 0 {
      curType := Some(p.location);
    }
    var typ := p.location;
    if curType.Some? {
      if typ !in t.types || curType.value !in t.types {
        return None;
      }
      if t.types[typ] < t.types[curType.value] {
        FindingSnoc(errors.entries, old(errors.entries), pathname, endpoint, p, found, found.(typeBefore := Some(curType.value)));
        found := found.(typeBefore := Some(curType.value));
        errors.entries := errors.entries + [Message(pathname, endpoint, TypeOrder(p, curType.value))];
      }
    }
    curType := Some(typ);
    if typ == "query" {
      ghost var before;
      ghost var log := errors.entries;
      curQName, before := CheckName(t.queryNames, curQName, p, false, pathname, endpoint, errors);
      if before.Some? {
        FindingSnoc(log, old(errors.entries), pathname, endpoint, p, found, found.(queryBefore := before));
      }
      found := found.(queryBefore := before);
    }
    if typ == "header" {
      ghost var before;
      ghost var log := errors.entries;
      curHName, before := CheckName(t.headerNames, curHName, p, true, pathname, endpoint, errors);
      if before.Some? {
        FindingSnoc(log, old(errors.entries), pathname, endpoint, p, found, found.(headerBefore := before));
      }
      found := found.(headerBefore := before);
    }
    r := Some(State(curType, curQName, curHName));
  }

  /**
   * The query-name or header-name check of the loop body: a recognised name is compared with the
   * last recognised one and becomes the last one. Returns the new last name, and the name the
   * parameter should not come before when it violates the order.
   */
  method CheckName(table: map<string, nat>, cur: Option<string>, p: Param, header: bool, pathname: string, endpoint: string, errors: ErrorLog)
    returns (next: Option<string>, ghost before: Option<string>)
    requires cur.Some? ==> cur.value in table
    modifies errors
    ensures (next, before) == NameStep(table, cur, p.name)
    ensures before.None? ==> errors.entries == old(errors.entries)
    ensures before.Some? ==>
      errors.entries == old(errors.entries) +
        [Message(pathname, endpoint, if header then HeaderNameOrder(p, before.value) else QueryNameOrder(p, before.value))]
  {
    next := cur;
    before := None;
    if next.None? && p.name in table {
      next := Some(p.name);
    }
    var name := p.name;
    if next.Some? && name in table {
      if table[name] < table[next.value] {
        before := next;
        var v := if header then HeaderNameOrder(p, next.value) else QueryNameOrder(p, next.value);
        errors.entries := errors.entries + [Message(pathname, endpoint, v)];
      }
      next := Some(name);
    }
  }

  /**
   * Recording one more finding, later in the order type, query name, header name than those
   * already recorded, appends its message to the log.
   */
  lemma FindingSnoc(log: seq<string>, start: seq<string>, pathname: string, endpoint: string, p: Param, f: Findings, g: Findings)
    requires log == start + Messages(pathname, endpoint, Violations(p, f))
    requires || (f == Findings(None, None, None) && g.typeBefore.Some? && g.queryBefore.None? && g.headerBefore.None?)
             || (f.queryBefore.None? && f.headerBefore.None? && g == f.(queryBefore := g.queryBefore) && g.queryBefore.Some?)
             || (f.headerBefore.None? && g == f.(headerBefore := g.headerBefore) && g.headerBefore.Some?)
    ensures g.typeBefore.Some? && f.typeBefore.None? ==>
      log + [Message(pathname, endpoint, TypeOrder(p, g.typeBefore.value))] == start + Messages(pathname, endpoint, Violations(p, g))
    ensures g.queryBefore.Some? && f.queryBefore.None? ==>
      log + [Message(pathname, endpoint, QueryNameOrder(p, g.queryBefore.value))] == start + Messages(pathname, endpoint, Violations(p, g))
    ensures g.headerBefore.Some? && f.headerBefore.None? ==>
      log + [Message(pathname, endpoint, HeaderNameOrder(p, g.headerBefore.value))] == start + Messages(pathname, endpoint, Violations(p, g))
  {
    var vs := Violations(p, f);
    var v := if f.typeBefore.None? && g.typeBefore.Some? then TypeOrder(p, g.typeBefore.value)
             else if f.queryBefore.None? && g.queryBefore.Some? then QueryNameOrder(p, g.queryBefore.value)
             else HeaderNameOrder(p, g.headerBefore.value);
    assert Violations(p, g) == vs + [v];
    assert (vs + [v])[..|vs|] == vs;
    AppendAssoc(start, Messages(pathname, endpoint, vs), [Message(pathname, endpoint, v)]);
  }

  /** The walk over one endpoint's parameters, from nil last-seen location and names. */
  method ValidateEndpoint(t: Tables, pathname: string, e: Endpoint, errors: ErrorLog) returns (crashed: bool)
    modifies errors
    ensures errors.entries == old(errors.entries) + EndpointReport(t, pathname, e).messages
    ensures crashed == EndpointReport(t, pathname, e).crashed
  {
    if e.parameters.None? {
      return true;
    }
    crashed := WalkParameters(t, pathname, e.verb, e.parameters.value, errors);
  }

  /** The loop over a present `parameters` list, from nil last-seen location and names. */
  method WalkParameters(t: Tables, pathname: string, verb: string, parameters: seq<Param>, errors: ErrorLog)
    returns (crashed: bool)
    modifies errors
    ensures errors.entries == old(errors.entries) + Messages(pathname, verb, WalkParams(t, parameters).violations)
    ensures crashed == WalkParams(t, parameters).crashed
  {
    ghost var start := errors.entries;
    var s := Initial;
    var idx := 0;
    ghost var w := WalkParams(t, []);
    while idx < |parameters|
      invariant 0 <= idx <= |parameters|
      invariant w == WalkParams(t, parameters[..idx]) && !w.crashed && s == w.state
      invariant WellFormed(t, s) && (idx == 0 || s.curType.Some?)
      invariant errors.entries == start + Messages(pathname, verb, w.violations)
    {
      var stop;
      stop, s, w := Iteration(t, pathname, verb, parameters, idx, s, w, start, errors);
      if stop {
        return true;
      }
      idx := idx + 1;
    }
    WholeSlice(parameters);
    crashed := false;
  }

  /** One turn of the loop over `parameters`: the check of parameter idx, and how far the walk got. */
  method Iteration(t: Tables, pathname: string, verb: string, parameters: seq<Param>, idx: nat, s: State,
                   ghost w: Walk, ghost start: seq<string>, errors: ErrorLog)
    returns (stop: bool, next: State, ghost w': Walk)
    requires idx < |parameters| && w == WalkParams(t, parameters[..idx]) && !w.crashed && s == w.state
    requires WellFormed(t, s) && (idx == 0 || s.curType.Some?)
    requires errors.entries == start + Messages(pathname, verb, w.violations)
    modifies errors
    ensures stop ==> WalkParams(t, parameters).crashed && WalkParams(t, parameters).violations == w.violations
    ensures stop ==> errors.entries == start + Messages(pathname, verb, w.violations)
    ensures !stop ==> w' == WalkParams(t, parameters[..idx + 1]) && !w'.crashed && next == w'.state
    ensures !stop ==> WellFormed(t, next) && next.curType.Some?
    ensures !stop ==> errors.entries == start + Messages(pathname, verb, w'.violations)
  {
    var r := CheckParameter(t, pathname, verb, idx, parameters[idx], s, errors);
    if r.None? {
      WalkCrashAt(t, parameters, idx, w);
      return true, s, w;
    }
    w' := WalkGoesOn(t, pathname, verb, parameters, idx, start, errors.entries, w, r.value);
    stop, next := false, r.value;
  }

  /** Concatenation is associative. */
  lemma AppendAssoc<T>(a: seq<T>, b: seq<T>, c: seq<T>)
    ensures a + (b + c) == a + b + c
  {
  }

  /** A parameter that raises ends the walk: the walk of the whole list is the walk up to it, raised. */
  lemma WalkCrashAt(t: Tables, ps: seq<Param>, idx: nat, w: Walk)
    requires idx < |ps| && w == WalkParams(t, ps[..idx]) && !w.crashed
    requires StepParam(t, w.state, ps[idx], idx == 0).Crash?
    ensures WalkParams(t, ps).violations == w.violations && WalkParams(t, ps).crashed
  {
    WalkCrashStep(t, ps, idx);
    FirstCrash(t, ps, idx + 1);
  }

  /** The parameter that raises stops the walk. */
  lemma WalkCrashStep(t: Tables, ps: seq<Param>, idx: nat)
    requires idx < |ps| && !WalkParams(t, ps[..idx]).crashed
    requires StepParam(t, WalkParams(t, ps[..idx]).state, ps[idx], idx == 0).Crash?
    ensures WalkParams(t, ps[..idx + 1]) == Walk(WalkParams(t, ps[..idx]).state, WalkParams(t, ps[..idx]).violations, true)
  {
    assert ps[..idx + 1][..idx] == ps[..idx];
  }

  /** After a parameter that does not raise, the loop's invariant holds one parameter further. */
  lemma WalkGoesOn(t: Tables, pathname: string, verb: string, ps: seq<Param>, idx: nat, start: seq<string>, log: seq<string>,
                   w: Walk, s: State)
    returns (next: Walk)
    requires idx < |ps| && w == WalkParams(t, ps[..idx]) && !w.crashed
    requires var step := StepParam(t, w.state, ps[idx], idx == 0);
      && step.Next? && s == step.state
      && log == start + Messages(pathname, verb, w.violations) + Messages(pathname, verb, Violations(ps[idx], step.found))
    ensures next == WalkParams(t, ps[..idx + 1]) && !next.crashed && s == next.state
    ensures WellFormed(t, s) && s.curType.Some?
    ensures log == start + Messages(pathname, verb, next.violations)
  {
    var step := StepParam(t, w.state, ps[idx], idx == 0);
    WalkNextAt(t, ps, idx);
    LogAppend(start, pathname, verb, w.violations, Violations(ps[idx], step.found));
    next := WalkParams(t, ps[..idx + 1]);
  }

  /** A parameter that does not raise: the walk goes on from its new state with its violations added. */
  lemma WalkNextAt(t: Tables, ps: seq<Param>, idx: nat)
    requires idx < |ps| && !WalkParams(t, ps[..idx]).crashed
    requires StepParam(t, WalkParams(t, ps[..idx]).state, ps[idx], idx == 0).Next?
    ensures var w := WalkParams(t, ps[..idx]);
      var step := StepParam(t, w.state, ps[idx], idx == 0);
      WalkParams(t, ps[..idx + 1]) == Walk(step.state, w.violations + Violations(ps[idx], step.found), false)
  {
    assert ps[..idx + 1][..idx] == ps[..idx];
  }

  /** The log after more violations: their messages follow the earlier ones. */
  lemma LogAppend(start: seq<string>, pathname: string, verb: string, a: seq<Violation>, b: seq<Violation>)
    ensures start + Messages(pathname, verb, a + b) == start + Messages(pathname, verb, a) + Messages(pathname, verb, b)
  {
    MessagesAppend(pathname, verb, a, b);
    AppendAssoc(start, Messages(pathname, verb, a), Messages(pathname, verb, b));
  }

  /** Messages of two lists of violations, one after the other. */
  lemma MessagesAppend(pathname: string, endpoint: string, a: seq<Violation>, b: seq<Violation>)
    ensures Messages(pathname, endpoint, a + b) == Messages(pathname, endpoint, a) + Messages(pathname, endpoint, b)
  {
    var l := Messages(pathname, endpoint, a + b);
    var r := Messages(pathname, endpoint, a) + Messages(pathname, endpoint, b);
    assert |l| == |r|;
    forall i | 0 <= i < |l|
      ensures l[i] == r[i]
    {
      MessagesAt(pathname, endpoint, a + b, i);
      if i < |a| {
        assert (a + b)[i] == a[i];
        MessagesAt(pathname, endpoint, a, i);
      } else {
        assert (a + b)[i] == b[i - |a|];
        MessagesAt(pathname, endpoint, b, i - |a|);
      }
    }
  }

  /** Once the walk raised, the rest of the parameters change nothing. */
  lemma {:induction false} FirstCrash(t: Tables, ps: seq<Param>, n: nat)
    requires n <= |ps| && WalkParams(t, ps[..n]).crashed
    ensures WalkParams(t, ps) == WalkParams(t, ps[..n])
    decreases |ps| - n
  {
    if n < |ps| {
      CrashStays(t, ps, n);
      FirstCrash(t, ps, n + 1);
    } else {
      WholeSlice(ps);
    }
  }

  /** The slice up to the length is the whole sequence. */
  lemma WholeSlice<T>(s: seq<T>)
    ensures s[..|s|] == s
  {
  }

  /** A walk that raised is unchanged by the next parameter. */
  lemma CrashStays(t: Tables, ps: seq<Param>, n: nat)
    requires n < |ps| && WalkParams(t, ps[..n]).crashed
    ensures WalkParams(t, ps[..n + 1]) == WalkParams(t, ps[..n])
  {
    assert ps[..n + 1][..n] == ps[..n];
  }

  /** The endpoints of one path, in order, until one raises. */
  method ValidatePath(t: Tables, pathname: string, endpoints: seq<Endpoint>, errors: ErrorLog) returns (crashed: bool)
    modifies errors
    ensures errors.entries == old(errors.entries) + EndpointsReport(t, pathname, endpoints).messages
    ensures crashed == EndpointsReport(t, pathname, endpoints).crashed
  {
    ghost var start := errors.entries;
    var i := 0;
    while i < |endpoints|
      invariant 0 <= i <= |endpoints|
      invariant !EndpointsReport(t, pathname, endpoints[..i]).crashed
      invariant errors.entries == start + EndpointsReport(t, pathname, endpoints[..i]).messages
    {
      EndpointsSnoc(t, pathname, endpoints, i);
      AppendAssoc(start, EndpointsReport(t, pathname, endpoints[..i]).messages, EndpointReport(t, pathname, endpoints[i]).messages);
      crashed := ValidateEndpoint(t, pathname, endpoints[i], errors);
      if crashed {
        EndpointsCrash(t, pathname, endpoints, i + 1);
        return;
      }
      i := i + 1;
    }
    assert endpoints[..i] == endpoints;
    crashed := false;
  }

  /** One more endpoint: the report carries on with that endpoint's report. */
  lemma EndpointsSnoc(t: Tables, pathname: string, es: seq<Endpoint>, i: nat)
    requires i < |es|
    ensures EndpointsReport(t, pathname, es[..i + 1]) == Then(EndpointsReport(t, pathname, es[..i]), EndpointReport(t, pathname, es[i]))
  {
    assert es[..i + 1][..i] == es[..i];
  }

  /** One more path: the report carries on with that path's report. */
  lemma PathsSnoc(t: Tables, paths: seq<PathItem>, i: nat)
    requires i < |paths|
    ensures PathsReport(t, paths[..i + 1]) == Then(PathsReport(t, paths[..i]), EndpointsReport(t, paths[i].pathname, paths[i].endpoints))
  {
    assert paths[..i + 1][..i] == paths[..i];
  }

  /** Once an endpoint raised, the endpoints after it change nothing. */
  lemma {:induction false} EndpointsCrash(t: Tables, pathname: string, es: seq<Endpoint>, n: nat)
    requires n <= |es| && EndpointsReport(t, pathname, es[..n]).crashed
    ensures EndpointsReport(t, pathname, es) == EndpointsReport(t, pathname, es[..n])
    decreases |es| - n
  {
    if n < |es| {
      assert es[..n + 1][..n] == es[..n];
      EndpointsCrash(t, pathname, es, n + 1);
    } else {
      WholeSlice(es);
    }
  }

  /** Once a path raised, the paths after it change nothing. */
  lemma {:induction false} PathsCrash(t: Tables, paths: seq<PathItem>, n: nat)
    requires n <= |paths| && PathsReport(t, paths[..n]).crashed
    ensures PathsReport(t, paths) == PathsReport(t, paths[..n])
    decreases |paths| - n
  {
    if n < |paths| {
      assert paths[..n + 1][..n] == paths[..n];
      PathsCrash(t, paths, n + 1);
    } else {
      WholeSlice(paths);
    }
  }

  /**
   * The loop over the paths with the given tables: every endpoint of every path, each walked from
   * nil last-seen location and names, appending to `errors`. It stops where a comparison or a
   * missing parameter list raises.
   */
  method ValidatePaths(t: Tables, paths: seq<PathItem>, errors: ErrorLog) returns (crashed: bool)
    modifies errors
    ensures errors.entries == old(errors.entries) + PathsReport(t, paths).messages
    ensures crashed == PathsReport(t, paths).crashed
  {
    ghost var start := errors.entries;
    var i := 0;
    while i < |paths|
      invariant 0 <= i <= |paths|
      invariant !PathsReport(t, paths[..i]).crashed
      invariant errors.entries == start + PathsReport(t, paths[..i]).messages
    {
      PathsSnoc(t, paths, i);
      AppendAssoc(start, PathsReport(t, paths[..i]).messages, EndpointsReport(t, paths[i].pathname, paths[i].endpoints).messages);
      crashed := ValidatePath(t, paths[i].pathname, paths[i].endpoints, errors);
      if crashed {
        PathsCrash(t, paths, i + 1);
        return;
      }
      i := i + 1;
    }
    WholeSlice(paths);
    crashed := false;
  }

  /** validate_arguments: the walk over all paths with the script's three ordering tables. */
  method ValidateArguments(paths: seq<PathItem>, errors: ErrorLog) returns (crashed: bool)
    modifies errors
    ensures errors.entries == old(errors.entries) + PathsReport(Orderings, paths).messages
    ensures crashed == PathsReport(Orderings, paths).crashed
  {
    crashed := ValidatePaths(Orderings, paths, errors);
  }
}
