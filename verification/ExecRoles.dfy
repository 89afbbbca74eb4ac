/** The roles of one intraday batch of fills, resolved over whole orders before any fill is written. */
module ExecRoles {
  import opened Common
  import opened Handoff

  /** What the roles are read from; an empty execution id is a fill without one. */
  datatype BatchFill = BatchFill(execId: ExecId, permId: Option<int>, orderId: Option<int>, secType: Option<string>, conId: Option<int>)

  function KeyOf(f: BatchFill): Option<OrderKey> {
    if f.execId == "" then None else GroupKey(f.permId, f.orderId)
  }

  predicate IsBag(f: BatchFill) {
    f.secType == Some("BAG")
  }

  function InOrder(key: OrderKey): BatchFill -> bool {
    (f: BatchFill) => KeyOf(f) == Some(key)
  }

  function IsLeg(f: BatchFill): bool { !IsBag(f) }

  function ContractsOf(fills: seq<BatchFill>): set<int> {
    set f | f in fills && f.conId.Some? :: f.conId.value
  }

  /** A BAG fill and at least two distinct contracts among the other fills. */
  predicate Qualifies(group: seq<BatchFill>) {
    Filter(group, IsBag) != [] && |ContractsOf(Filter(group, IsLeg))| >= 2
  }

  function Assign(roles: map<ExecId, Role>, fills: seq<BatchFill>, role: Role): map<ExecId, Role> {
    if fills == [] then roles else Assign(roles, fills[..|fills| - 1], role)[fills[|fills| - 1].execId := role]
  }

  function AssignGroup(roles: map<ExecId, Role>, group: seq<BatchFill>): map<ExecId, Role> {
    if Qualifies(group) then Assign(Assign(roles, Filter(group, IsBag), ComboSummary), Filter(group, IsLeg), Leg) else roles
  }

  /** The order keys of the batch, in the order first seen. */
  function Keys(fills: seq<BatchFill>): (keys: seq<OrderKey>)
    ensures forall key :: key in keys <==> exists f :: f in fills && KeyOf(f) == Some(key)
  {
    if fills == [] then []
    else
      var front, last := Keys(fills[..|fills| - 1]), KeyOf(fills[|fills| - 1]);
      assert fills == fills[..|fills| - 1] + [fills[|fills| - 1]];
      if last.Some? && last.value !in front then front + [last.value] else front
  }

  function AssignKeys(roles: map<ExecId, Role>, fills: seq<BatchFill>, keys: seq<OrderKey>): map<ExecId, Role> {
    if keys == [] then roles
    else AssignGroup(AssignKeys(roles, fills, keys[..|keys| - 1]), Filter(fills, InOrder(keys[|keys| - 1])))
  }

  function RolesOf(fills: seq<BatchFill>): map<ExecId, Role> {
    AssignKeys(map[], fills, Keys(fills))
  }

  /** A fill without an assigned role is a standalone one. */
  function RoleIn(roles: map<ExecId, Role>, id: ExecId): Role {
    if id in roles then roles[id] else Standalone
  }

  // ---------------------------------------------------------------------
  // The loops
  // ---------------------------------------------------------------------

  lemma {:induction false} KeysStep(fills: seq<BatchFill>, i: nat)
    requires i < |fills|
    ensures Keys(fills[..i + 1]) == Keys(fills[..i]) +
      if KeyOf(fills[i]).Some? && KeyOf(fills[i]).value !in Keys(fills[..i]) then [KeyOf(fills[i]).value] else []
    ensures forall key :: Filter(fills[..i + 1], InOrder(key)) == Filter(fills[..i], InOrder(key)) + (if KeyOf(fills[i]) == Some(key) then [fills[i]] else [])
  {
    assert fills[..i + 1][..i] == fills[..i];
    forall key {
      FilterStep(fills, i, InOrder(key));
    }
  }

  lemma {:induction false} NoneYet(fills: seq<BatchFill>, key: OrderKey)
    requires key !in Keys(fills)
    ensures Filter(fills, InOrder(key)) == []
  {
    FilterNone(fills, InOrder(key));
  }

  ghost predicate Groups(groups: map<OrderKey, seq<BatchFill>>, keys: seq<OrderKey>, fills: seq<BatchFill>) {
    && keys == Keys(fills)
    && (forall key :: key in groups <==> key in keys)
    && (forall key :: key in keys ==> groups[key] == Filter(fills, InOrder(key)))
  }

  method GroupByOrder(fills: seq<BatchFill>) returns (groups: map<OrderKey, seq<BatchFill>>, keys: seq<OrderKey>)
    ensures Groups(groups, keys, fills)
  {
    groups, keys := map[], [];
    for i := 0 to |fills|
      invariant Groups(groups, keys, fills[..i])
    {
      KeysStep(fills, i);
      var key := KeyOf(fills[i]);
      if key.None? { continue; }
      if key.value !in groups {
        NoneYet(fills[..i], key.value);
        groups, keys := groups[key.value := []], keys + [key.value];
      }
      groups := groups[key.value := groups[key.value] + [fills[i]]];
    }
    assert fills[..|fills|] == fills;
  }

  method AssignAll(roles: map<ExecId, Role>, fills: seq<BatchFill>, role: Role) returns (after: map<ExecId, Role>)
    ensures after == Assign(roles, fills, role)
  {
    after := roles;
    for i := 0 to |fills|
      invariant after == Assign(roles, fills[..i], role)
    {
      assert fills[..i + 1][..i] == fills[..i];
      after := after[fills[i].execId := role];
    }
    assert fills[..|fills|] == fills;
  }

  method AssignOrder(roles: map<ExecId, Role>, group: seq<BatchFill>) returns (after: map<ExecId, Role>)
    ensures after == AssignGroup(roles, group)
  {
    after := roles;
    var bags, legs := Filter(group, IsBag), Filter(group, IsLeg);
    if bags != [] && |ContractsOf(legs)| >= 2 {
      after := AssignAll(after, bags, ComboSummary);
      after := AssignAll(after, legs, Leg);
    }
  }

  lemma AssignKeysStep(fills: seq<BatchFill>, keys: seq<OrderKey>, i: nat)
    requires i < |keys|
    ensures AssignKeys(map[], fills, keys[..i + 1]) == AssignGroup(AssignKeys(map[], fills, keys[..i]), Filter(fills, InOrder(keys[i])))
  {
    assert keys[..i + 1][..i] == keys[..i];
  }

  /** Resolve the roles of a batch, order by order. */
  method ExecRolesByExecId(fills: seq<BatchFill>) returns (roles: map<ExecId, Role>)
    ensures roles == RolesOf(fills)
  {
    var groups, keys := GroupByOrder(fills);
    roles := map[];
    for i := 0 to |keys|
      invariant roles == AssignKeys(map[], fills, keys[..i])
    {
      AssignKeysStep(fills, keys, i);
      assert keys[i] in keys;
      roles := AssignOrder(roles, groups[keys[i]]);
    }
    assert keys[..|keys|] == keys;
  }

  // ---------------------------------------------------------------------
  // Which role a fill gets
  // ---------------------------------------------------------------------

  ghost predicate UniqueIds(fills: seq<BatchFill>) {
    forall f, g :: f in fills && g in fills && f.execId == g.execId ==> f == g
  }

  ghost predicate SameOrder(fills: seq<BatchFill>, f: BatchFill, g: BatchFill) {
    g in fills && KeyOf(g).Some? && KeyOf(g) == KeyOf(f)
  }

  /** The fill's order has a BAG fill and legs in two different contracts. */
  ghost predicate InCombo(fills: seq<BatchFill>, f: BatchFill) {
    && (exists b :: SameOrder(fills, f, b) && IsBag(b))
    && (exists a, b :: SameOrder(fills, f, a) && SameOrder(fills, f, b) && IsLegOn(a) && IsLegOn(b) && a.conId != b.conId)
  }

  predicate IsLegOn(f: BatchFill) {
    IsLeg(f) && f.conId.Some?
  }

  lemma {:induction false} AssignProperty(roles: map<ExecId, Role>, fills: seq<BatchFill>, role: Role, id: ExecId)
    ensures RoleIn(Assign(roles, fills, role), id) == if exists f :: f in fills && f.execId == id then role else RoleIn(roles, id)
  {
    if fills != [] {
      var front, last := fills[..|fills| - 1], fills[|fills| - 1];
      assert fills == front + [last];
      AssignProperty(roles, front, role, id);
      if f :| f in front && f.execId == id { assert f in fills; }
      assert last in fills;
    }
  }

  lemma TwoElements(s: set<int>, a: int, b: int)
    requires a in s && b in s && a != b
    ensures |s| >= 2
  {
    assert {a, b} <= s;
    SubsetSize({a, b}, s);
  }

  lemma {:induction false} SubsetSize<T>(a: set<T>, b: set<T>)
    requires a <= b
    ensures |a| <= |b|
    decreases |a|
  {
    if a != {} {
      var x :| x in a;
      SubsetSize(a - {x}, b - {x});
    }
  }

  lemma AtLeastTwo<T>(s: set<T>) returns (a: T, b: T)
    requires |s| >= 2
    ensures a in s && b in s && a != b
  {
    a :| a in s;
    var rest := s - {a};
    assert |rest| >= 1;
    b :| b in rest;
  }

  lemma GroupMembers(fills: seq<BatchFill>, f: BatchFill, key: OrderKey)
    requires KeyOf(f) == Some(key)
    ensures forall g :: g in Filter(fills, InOrder(key)) <==> SameOrder(fills, f, g)
  {}

  lemma QualifyingIsCombo(fills: seq<BatchFill>, f: BatchFill, group: seq<BatchFill>)
    requires (forall g :: g in group <==> SameOrder(fills, f, g)) && Qualifies(group)
    ensures InCombo(fills, f)
  {
    var bags, legs := Filter(group, IsBag), Filter(group, IsLeg);
    assert bags[0] in bags && SameOrder(fills, f, bags[0]) && IsBag(bags[0]);
    var x, y := AtLeastTwo(ContractsOf(legs));
    var a :| a in legs && a.conId.Some? && a.conId.value == x;
    var b :| b in legs && b.conId.Some? && b.conId.value == y;
    assert SameOrder(fills, f, a) && SameOrder(fills, f, b) && IsLegOn(a) && IsLegOn(b) && a.conId != b.conId;
  }

  lemma ComboQualifies(fills: seq<BatchFill>, f: BatchFill, group: seq<BatchFill>)
    requires (forall g :: g in group <==> SameOrder(fills, f, g)) && InCombo(fills, f)
    ensures Qualifies(group)
  {
    var bags, legs := Filter(group, IsBag), Filter(group, IsLeg);
    var bag :| SameOrder(fills, f, bag) && IsBag(bag);
    assert bag in bags;
    var a, b :| SameOrder(fills, f, a) && SameOrder(fills, f, b) && IsLegOn(a) && IsLegOn(b) && a.conId != b.conId;
    assert a in legs && b in legs;
    TwoElements(ContractsOf(legs), a.conId.value, b.conId.value);
  }

  /** A group qualifies exactly when it is a combo's. */
  lemma QualifiesMeans(fills: seq<BatchFill>, f: BatchFill, key: OrderKey)
    requires KeyOf(f) == Some(key)
    ensures Qualifies(Filter(fills, InOrder(key))) <==> InCombo(fills, f)
  {
    var group := Filter(fills, InOrder(key));
    GroupMembers(fills, f, key);
    if Qualifies(group) { QualifyingIsCombo(fills, f, group); }
    if InCombo(fills, f) { ComboQualifies(fills, f, group); }
  }

  /** The group of a key settles the role of its own fills and leaves all others. */
  lemma GroupProperty(roles: map<ExecId, Role>, fills: seq<BatchFill>, key: OrderKey, f: BatchFill)
    requires UniqueIds(fills) && f in fills
    ensures RoleIn(AssignGroup(roles, Filter(fills, InOrder(key))), f.execId) ==
      if KeyOf(f) == Some(key) && Qualifies(Filter(fills, InOrder(key))) then (if IsBag(f) then ComboSummary else Leg)
      else RoleIn(roles, f.execId)
  {
    var group := Filter(fills, InOrder(key));
    var bags, legs := Filter(group, IsBag), Filter(group, IsLeg);
    AssignProperty(roles, bags, ComboSummary, f.execId);
    AssignProperty(Assign(roles, bags, ComboSummary), legs, Leg, f.execId);
    if KeyOf(f) == Some(key) {
      assert f in group;
      assert if IsBag(f) then f in bags else f in legs;
    }
    assert forall g :: g in bags || g in legs ==> g in fills && KeyOf(g) == Some(key);
  }

  lemma {:induction false} KeysProperty(fills: seq<BatchFill>, keys: seq<OrderKey>, f: BatchFill)
    requires UniqueIds(fills) && f in fills
    ensures RoleIn(AssignKeys(map[], fills, keys), f.execId) ==
      if KeyOf(f).Some? && KeyOf(f).value in keys && Qualifies(Filter(fills, InOrder(KeyOf(f).value)))
      then (if IsBag(f) then ComboSummary else Leg) else Standalone
  {
    if keys != [] {
      var front, last := keys[..|keys| - 1], keys[|keys| - 1];
      assert keys == front + [last];
      KeysProperty(fills, front, f);
      GroupProperty(AssignKeys(map[], fills, front), fills, last, f);
    }
  }

  /** A fill of a combo is its summary when it is the BAG and a leg when not; every other fill is standalone. */
  lemma RoleOfEachFill(fills: seq<BatchFill>, f: BatchFill)
    requires UniqueIds(fills) && f in fills
    ensures RoleIn(RolesOf(fills), f.execId) == if InCombo(fills, f) then (if IsBag(f) then ComboSummary else Leg) else Standalone
  {
    KeysProperty(fills, Keys(fills), f);
    if KeyOf(f).Some? { QualifiesMeans(fills, f, KeyOf(f).value); }
  }

  /** The order of the batch does not matter. */
  lemma BatchOrderDoesNotMatter(fills: seq<BatchFill>, other: seq<BatchFill>, f: BatchFill)
    requires UniqueIds(fills) && f in fills && multiset(fills) == multiset(other)
    ensures RoleIn(RolesOf(fills), f.execId) == RoleIn(RolesOf(other), f.execId)
  {
    SameElements(fills, other);
    RoleOfEachFill(fills, f);
    RoleOfEachFill(other, f);
    assert forall g :: SameOrder(fills, f, g) <==> SameOrder(other, f, g);
  }

  // ---------------------------------------------------------------------
  // In columns
  // ---------------------------------------------------------------------

  /** Fills with ids, of one perm id, or of one order id where neither has a perm id. */
  ghost predicate AreOfOneOrder(f: BatchFill, g: BatchFill) {
    && |f.execId| > 0 && |g.execId| > 0
    && if IsPresent(f.permId) || IsPresent(g.permId) then f.permId == g.permId else IsPresent(f.orderId) && f.orderId == g.orderId
  }

  /** The order has a BAG fill, and other fills in two different contracts. */
  ghost predicate IsOfCombo(fills: seq<BatchFill>, f: BatchFill) {
    && (exists b :: b in fills && AreOfOneOrder(f, b) && b.secType == Some("BAG"))
    && (exists a, b :: a in fills && b in fills && AreOfOneOrder(f, a) && AreOfOneOrder(f, b)
          && a.secType != Some("BAG") && b.secType != Some("BAG") && a.conId.Some? && b.conId.Some? && a.conId.value != b.conId.value)
  }

  lemma {:induction false} OrderInColumns(fills: seq<BatchFill>, f: BatchFill, g: BatchFill)
    ensures SameOrder(fills, f, g) <==> g in fills && AreOfOneOrder(f, g)
  {}

  lemma {:induction false} ComboInColumns(fills: seq<BatchFill>, f: BatchFill)
    ensures InCombo(fills, f) <==> IsOfCombo(fills, f)
  {
    forall g ensures SameOrder(fills, f, g) <==> g in fills && AreOfOneOrder(f, g) {
      OrderInColumns(fills, f, g);
    }
    if InCombo(fills, f) {
      var b :| SameOrder(fills, f, b) && IsBag(b);
      var x, y :| SameOrder(fills, f, x) && SameOrder(fills, f, y) && IsLegOn(x) && IsLegOn(y) && x.conId != y.conId;
      assert b in fills && AreOfOneOrder(f, b);
      assert x in fills && y in fills && AreOfOneOrder(f, x) && AreOfOneOrder(f, y);
    }
    if IsOfCombo(fills, f) {
      var b :| b in fills && AreOfOneOrder(f, b) && b.secType == Some("BAG");
      var x, y :| x in fills && y in fills && AreOfOneOrder(f, x) && AreOfOneOrder(f, y)
        && x.secType != Some("BAG") && y.secType != Some("BAG") && x.conId.Some? && y.conId.Some? && x.conId.value != y.conId.value;
      assert SameOrder(fills, f, b) && SameOrder(fills, f, x) && SameOrder(fills, f, y);
    }
  }

  /** The role of every fill of a batch, from the columns of the batch alone. */
  lemma {:induction false} RolesInColumns(fills: seq<BatchFill>, f: BatchFill)
    requires UniqueIds(fills) && f in fills
    ensures RoleIn(RolesOf(fills), f.execId) ==
      if !IsOfCombo(fills, f) then Standalone else if f.secType == Some("BAG") then ComboSummary else Leg
  {
    RoleOfEachFill(fills, f);
    ComboInColumns(fills, f);
  }
}
