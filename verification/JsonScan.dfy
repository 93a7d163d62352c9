/**
 * The two iterative scanners. Each keeps a stack of values still to visit and running totals, and may
 * give up early; both are proved to compute the recursive totals and to give up exactly when a total
 * is too large.
 */
module JsonScan {
  import opened Foundation
  import opened JsonText
  import opened JsonReader

  // ---- totals as one value --------------------------------------------------------------------

  datatype Totals = Totals(bytes: nat, nodes: nat, depth: nat, str: nat, key: nat, safe: bool)

  const NOTHING := Totals(0, 0, 0, 0, 0, true)

  function Join(a: Totals, b: Totals): Totals {
    Totals(a.bytes + b.bytes, a.nodes + b.nodes, Max(a.depth, b.depth), Max(a.str, b.str), Max(a.key, b.key),
           a.safe && b.safe)
  }

  lemma JoinAlgebra(a: Totals, b: Totals, c: Totals)
    ensures Join(Join(a, b), c) == Join(a, Join(b, c))
    ensures Join(a, b) == Join(b, a)
    ensures Join(a, NOTHING) == a
  {
  }

  /** The recursive totals of a value found at depth `d`. */
  function TotalOf(v: Json, d: nat): Totals {
    Totals(Bytes(v), Nodes(v), d + Depth(v), LongestString(v), LongestKey(v), SafeNumbers(v))
  }

  function KeyTotal(m: Member, keyed: bool): Totals {
    if keyed then Totals(Utf8Length(Quoted(m.key)) + 1, 0, 0, 0, Utf8Length(m.key), true) else NOTHING
  }

  /** The totals of the first `n` members, keys included. */
  function MembersTotal(ms: seq<Member>, n: nat, keyed: bool, d: nat): Totals
    requires n <= |ms|
  {
    if n == 0 then NOTHING
    else Join(MembersTotal(ms, n - 1, keyed, d), MemberTotal(ms[n - 1], keyed, d))
  }

  function MemberTotal(m: Member, keyed: bool, d: nat): Totals {
    Join(KeyTotal(m, keyed), TotalOf(m.value, d))
  }

  lemma NoMembers(ms: seq<Member>, keyed: bool, d: nat)
    ensures MembersTotal(ms, 0, keyed, d) == NOTHING
  {
  }

  lemma MembersTotalSteps(ms: seq<Member>, n: nat, keyed: bool, d: nat)
    requires n < |ms|
    ensures MembersTotal(ms, n + 1, keyed, d) ==
              Join(MembersTotal(ms, n, keyed, d), Join(KeyTotal(ms[n], keyed), TotalOf(ms[n].value, d)))
  {
  }

  /** The same totals, taken from the front as the recursive definitions do. */
  lemma {:induction false} MembersTotalFront(ms: seq<Member>, n: nat, keyed: bool, d: nat)
    requires 0 < n <= |ms|
    ensures MembersTotal(ms, n, keyed, d) ==
              Join(MemberTotal(ms[0], keyed, d), MembersTotal(ms[1..], n - 1, keyed, d))
  {
    hide MemberTotal, Join;
    var first := MemberTotal(ms[0], keyed, d);
    if n == 1 {
      assert MembersTotal(ms, 0, keyed, d) == NOTHING == MembersTotal(ms[1..], 0, keyed, d);
      JoinAlgebra(NOTHING, first, NOTHING);
      JoinAlgebra(first, NOTHING, NOTHING);
    } else {
      MembersTotalFront(ms, n - 1, keyed, d);
      assert ms[1..][n - 2] == ms[n - 1];
      JoinAlgebra(first, MembersTotal(ms[1..], n - 2, keyed, d), MemberTotal(ms[n - 1], keyed, d));
    }
  }

  lemma {:induction false} MembersTotalIs(ms: seq<Member>, keyed: bool, d: nat)
    ensures var t := MembersTotal(ms, |ms|, keyed, d);
            && t.bytes == KeyBytes(ms, keyed) + BytesIn(ms) && t.nodes == NodesIn(ms)
            && t.depth == (if ms == [] then 0 else d + DepthIn(ms))
            && t.str == LongestStringIn(ms) && t.key == LongestKeyIn(ms, keyed) && t.safe == SafeNumbersIn(ms)
    decreases |ms|
  {
    hide MembersTotal, Utf8Length, Bytes;
    if ms == [] {
      NoMembers(ms, keyed, d);
    } else {
      MembersTotalFront(ms, |ms|, keyed, d);
      MembersTotalIs(ms[1..], keyed, d);
    }
  }

  /** The totals of a container with `n` members. */
  function ContainerOf(n: nat, d: nat, members: Totals): Totals {
    Join(Totals(Brackets(n), 1, d, 0, 0, true), members)
  }

  /** A container is its own brackets and commas, and its members one level deeper. */
  lemma ContainerTotal(v: Json, d: nat)
    requires Container(v)
    ensures TotalOf(v, d) == ContainerOf(|v.members|, d, MembersTotal(v.members, |v.members|, v.Obj?, d + 1))
  {
    ContainerBytes(v);
    MembersTotalIs(v.members, v.Obj?, d + 1);
  }

  lemma LeafTotal(v: Json, d: nat)
    requires !Container(v)
    ensures TotalOf(v, d) ==
              Totals(Utf8Length(Print(v)), 1, d, if v.Str? then Utf8Length(v.chars) else 0, 0, v.Number? ==> Safe(v.text))
  {
  }

  // ---- the stack ------------------------------------------------------------------------------

  /** A value waiting on the stack, with the depth at which it was found. */
  datatype Pending = Pending(depth: nat, value: Json)

  function PendingTotal(stack: seq<Pending>): (t: Totals)
    ensures t.nodes >= |stack|
  {
    if stack == [] then NOTHING
    else
      var k := |stack| - 1;
      Join(PendingTotal(stack[..k]), TotalOf(stack[k].value, stack[k].depth))
  }

  lemma OnePending(p: Pending)
    ensures PendingTotal([p]) == TotalOf(p.value, p.depth)
  {
    hide TotalOf;
    assert [p][..0] == [];
    JoinAlgebra(TotalOf(p.value, p.depth), NOTHING, NOTHING);
  }

  lemma NonePending()
    ensures PendingTotal([]) == NOTHING
  {
  }

  lemma Pop(stack: seq<Pending>)
    requires stack != []
    ensures var k := |stack| - 1;
            PendingTotal(stack) == Join(PendingTotal(stack[..k]), TotalOf(stack[k].value, stack[k].depth))
  {
  }

  lemma Push(stack: seq<Pending>, p: Pending)
    ensures PendingTotal(stack + [p]) == Join(PendingTotal(stack), TotalOf(p.value, p.depth))
  {
    assert (stack + [p])[..|stack|] == stack;
  }

  lemma Regroup(counted: Totals, waiting: Totals, front: Totals, key: Totals, value: Totals)
    ensures Join(Join(Join(counted, key), Join(waiting, value)), front) ==
              Join(Join(counted, waiting), Join(front, Join(key, value)))
  {
  }

  /** Keys counted so far. */
  function KeysSeen(bytes: nat, longestKey: nat): Totals {
    Totals(bytes, 0, 0, 0, longestKey, true)
  }

  /** Push the children from the last to the first, counting the keys on the way. */
  method PushMembers(stack: seq<Pending>, members: seq<Member>, keyed: bool, depth: nat)
    returns (pushed: seq<Pending>, bytes: nat, longestKey: nat)
    ensures |pushed| == |stack| + |members|
    ensures Join(KeysSeen(bytes, longestKey), PendingTotal(pushed)) ==
              Join(PendingTotal(stack), MembersTotal(members, |members|, keyed, depth + 1))
  {
    hide PendingTotal, MembersTotal, TotalOf, Utf8Length, Quoted;
    pushed, bytes, longestKey := stack, 0, 0;
    var index := |members|;
    ghost var waiting, front := PendingTotal(stack), MembersTotal(members, |members|, keyed, depth + 1);
    ghost var goal := Join(waiting, front);
    while index > 0
      invariant 0 <= index <= |members|
      invariant |pushed| + index == |stack| + |members|
      invariant waiting == PendingTotal(pushed) && front == MembersTotal(members, index, keyed, depth + 1)
      invariant Join(Join(KeysSeen(bytes, longestKey), waiting), front) == goal
    {
      index := index - 1;
      var m := members[index];
      ghost var counted := KeysSeen(bytes, longestKey);
      if keyed {
        var keyBytes := Utf8Length(m.key);
        longestKey := if keyBytes > longestKey then keyBytes else longestKey;
        bytes := bytes + Utf8Length(Quoted(m.key)) + 1;
      }
      ghost var key, value := KeyTotal(m, keyed), TotalOf(m.value, depth + 1);
      assert KeysSeen(bytes, longestKey) == Join(counted, key);
      MembersTotalSteps(members, index, keyed, depth + 1);
      Regroup(counted, waiting, MembersTotal(members, index, keyed, depth + 1), key, value);
      Push(pushed, Pending(depth + 1, m.value));
      pushed := pushed + [Pending(depth + 1, m.value)];
      waiting, front := Join(waiting, value), MembersTotal(members, index, keyed, depth + 1);
    }
    NoMembers(members, keyed, depth + 1);
  }

  // ---- the component scanner ------------------------------------------------------------------

  datatype Budget = Budget(bytes: nat, depth: nat, maxStringBytes: nat, nodes: nat)

  datatype Limits = Limits(bytes: nat, depth: nat, maxStringBytes: nat, nodes: nat)

  /** The longest string counts keys as well. */
  function BudgetOf(v: Json): Budget {
    Budget(Bytes(v), Depth(v), Max(LongestString(v), LongestKey(v)), Nodes(v))
  }

  lemma BudgetCosts(v: Json)
    ensures BudgetOf(v).bytes == RecordBudgetOf(v).bytes == Cost(v)
  {
    PrintCosts(v);
  }

  predicate Within(b: Budget, limits: Option<Limits>) {
    limits.None? ||
      (&& b.bytes <= limits.value.bytes && b.depth <= limits.value.depth
       && b.maxStringBytes <= limits.value.maxStringBytes && b.nodes <= limits.value.nodes)
  }

  predicate ChildrenWithin(parentDepth: nat, children: nat, visited: nat, pending: nat, limits: Option<Limits>) {
    limits.None? || children == 0 ||
      (parentDepth + 1 <= limits.value.depth && visited + pending + children <= limits.value.nodes)
  }

  /** Running totals and what is pending make up the whole; strings and keys share one maximum. */
  predicate Accounts(whole: Totals, b: Budget, rest: Totals) {
    && b.bytes + rest.bytes == whole.bytes
    && b.nodes + rest.nodes == whole.nodes
    && Max(b.depth, rest.depth) == whole.depth
    && Max(b.maxStringBytes, Max(rest.str, rest.key)) == Max(whole.str, whole.key)
  }

  function BudgetFrom(whole: Totals): Budget {
    Budget(whole.bytes, whole.depth, Max(whole.str, whole.key), whole.nodes)
  }

  /** A total that a partial sum already exceeds is exceeded by the whole. */
  lemma PartialExceeds(whole: Totals, b: Budget, rest: Totals, limits: Option<Limits>)
    requires Accounts(whole, b, rest) && !Within(b, limits)
    ensures !Within(BudgetFrom(whole), limits)
  {
  }

  /** Counting the current value before its children have been looked at cannot overshoot. */
  lemma CurrentExceeds(whole: Totals, b: Budget, rest: Totals, current: Totals, d: nat, limits: Option<Limits>)
    requires Accounts(whole, b, Join(rest, current)) && 1 <= current.nodes && d <= current.depth
    requires !Within(Counted(b, d), limits)
    ensures !Within(BudgetFrom(whole), limits)
  {
  }

  function Counted(b: Budget, depth: nat): Budget {
    b.(nodes := b.nodes + 1, depth := if depth > b.depth then depth else b.depth)
  }

  /** A value without members is its bytes and, if it is one, its string. */
  lemma LeafKeepsAccounts(whole: Totals, b: Budget, rest: Totals, bytes: nat, str: Option<nat>, d: nat, safe: bool)
    requires Accounts(whole, b, Join(rest, Totals(bytes, 1, d, if str.Some? then str.value else 0, 0, safe)))
    ensures var c := Counted(b, d);
            Accounts(whole, Budget(c.bytes + bytes, c.depth,
                                   if str.Some? then Max(c.maxStringBytes, str.value) else c.maxStringBytes, c.nodes), rest)
  {
  }

  lemma ContainerKeepsAccounts(whole: Totals, b: Budget, rest: Totals, n: nat, d: nat, members: Totals,
                               keys: nat, key: nat, pushed: Totals)
    requires Accounts(whole, b, Join(rest, ContainerOf(n, d, members)))
    requires Join(KeysSeen(keys, key), pushed) == Join(rest, members)
    ensures var c := Counted(b, d);
            Accounts(whole, Budget(c.bytes + Brackets(n) + keys, c.depth, Max(c.maxStringBytes, key), c.nodes), pushed)
  {
  }

  /** What is known of the members of a container found at depth `d`. */
  predicate MembersAt(n: nat, d: nat, members: Totals) {
    n <= members.nodes && (n > 0 ==> d + 1 <= members.depth)
  }

  lemma MembersAreAt(ms: seq<Member>, keyed: bool, d: nat)
    ensures MembersAt(|ms|, d, MembersTotal(ms, |ms|, keyed, d + 1))
  {
    hide Utf8Length, Bytes, MembersTotal, Depth, LongestString, LongestKey, SafeNumbers;
    MembersTotalIs(ms, keyed, d + 1);
  }

  /** Children too deep or too many push the whole over a limit. */
  lemma ChildrenExceed(whole: Totals, b: Budget, rest: Totals, n: nat, d: nat, members: Totals, pending: nat,
                       limits: Option<Limits>)
    requires Accounts(whole, b, Join(rest, ContainerOf(n, d, members))) && MembersAt(n, d, members) && pending <= rest.nodes
    requires !ChildrenWithin(d, n, b.nodes + 1, pending, limits)
    ensures !Within(BudgetFrom(whole), limits)
  {
  }

  lemma TotalAtLeast(v: Json, d: nat)
    ensures 1 <= TotalOf(v, d).nodes && d <= TotalOf(v, d).depth
    ensures BudgetFrom(TotalOf(v, 0)) == BudgetOf(v)
  {
    hide Utf8Length, Print, LongestString, LongestKey, SafeNumbers;
  }

  lemma StartAccounts(whole: Totals)
    ensures Accounts(whole, Budget(0, 0, 0, 0), whole)
  {
  }

  lemma AccountsDescend(whole: Totals, b: Budget, rest: Totals, current: Totals)
    requires Accounts(whole, b, Join(rest, current)) && 1 <= current.nodes
    ensures b.nodes < whole.nodes
  {
  }

  lemma NothingLeft(whole: Totals, b: Budget)
    requires Accounts(whole, b, NOTHING)
    ensures b == BudgetFrom(whole)
  {
  }

  /** `peak` is the largest number of values that ever waited. */
  method ScanActivationJson(root: Json, limits: Option<Limits>) returns (r: Option<Budget>, peak: nat)
    ensures r == if Within(BudgetOf(root), limits) then Some(BudgetOf(root)) else None
    ensures r.Some? ==> r.value.bytes == Cost(root)
    ensures limits.Some? ==> peak <= Max(1, limits.value.nodes)
  {
    hide PendingTotal, MembersTotal, TotalOf, Join, Accounts, Print, Utf8Length, BudgetOf, BudgetFrom, Cost, ContainerOf,
         MembersAt, Safe, IsNumber;
    var stack := [Pending(0, root)];
    var b := Budget(0, 0, 0, 0);
    peak := 1;
    ghost var whole := TotalOf(root, 0);
    TotalAtLeast(root, 0);
    OnePending(Pending(0, root));
    StartAccounts(whole);
    while stack != []
      invariant Accounts(whole, b, PendingTotal(stack))
      invariant b.nodes == 0 || Within(b, limits)
      invariant b.nodes == 0 ==> stack != []
      invariant |stack| <= peak && (limits.Some? ==> peak <= Max(1, limits.value.nodes))
      decreases whole.nodes - b.nodes
    {
      Pop(stack);
      var current := stack[|stack| - 1];
      stack := stack[..|stack| - 1];
      ghost var before, rest, self := b, PendingTotal(stack), TotalOf(current.value, current.depth);
      TotalAtLeast(current.value, current.depth);
      AccountsDescend(whole, before, rest, self);
      b := Counted(b, current.depth);
      if !Within(b, limits) {
        CurrentExceeds(whole, before, rest, self, current.depth, limits);
        return None, peak;
      }
      var value := current.value;
      if Container(value) {
        ghost var members := MembersTotal(value.members, |value.members|, value.Obj?, current.depth + 1);
        ContainerTotal(value, current.depth);
        MembersAreAt(value.members, value.Obj?, current.depth);
        b := b.(bytes := b.bytes + Brackets(|value.members|));
        if !ChildrenWithin(current.depth, |value.members|, b.nodes, |stack|, limits) {
          ChildrenExceed(whole, before, rest, |value.members|, current.depth, members, |stack|, limits);
          return None, peak;
        }
        var keyBytes, longestKey;
        stack, keyBytes, longestKey := PushMembers(stack, value.members, value.Obj?, current.depth);
        ContainerKeepsAccounts(whole, before, rest, |value.members|, current.depth, members, keyBytes, longestKey,
                               PendingTotal(stack));
        b := b.(bytes := b.bytes + keyBytes, maxStringBytes := Max(b.maxStringBytes, longestKey));
        peak := Max(peak, |stack|);
      } else {
        var bytes := Utf8Length(Print(value));
        LeafTotal(value, current.depth);
        LeafKeepsAccounts(whole, before, rest, bytes, if value.Str? then Some(Utf8Length(value.chars)) else None,
                          current.depth, self.safe);
        b := b.(bytes := b.bytes + bytes);
        if value.Str? {
          b := b.(maxStringBytes := Max(b.maxStringBytes, Utf8Length(value.chars)));
        }
      }
      if !Within(b, limits) {
        PartialExceeds(whole, b, PendingTotal(stack), limits);
        return None, peak;
      }
    }
    NonePending();
    NothingLeft(whole, b);
    BudgetCosts(root);
    r := Some(b);
  }

  // ---- the record scanner ---------------------------------------------------------------------

  /** Keys are measured apart from strings. */
  datatype RecordBudget = RecordBudget(bytes: nat, depth: nat, maxKeyBytes: nat, maxStringBytes: nat, nodes: nat)

  const RECORD_LIMITS := RecordBudget(65_536, 16, 512, 512, 512)

  function RecordBudgetOf(v: Json): RecordBudget {
    RecordBudget(Bytes(v), Depth(v), LongestKey(v), LongestString(v), Nodes(v))
  }

  predicate RecordWithin(b: RecordBudget) {
    && b.bytes <= RECORD_LIMITS.bytes && b.depth <= RECORD_LIMITS.depth && b.maxKeyBytes <= RECORD_LIMITS.maxKeyBytes
    && b.maxStringBytes <= RECORD_LIMITS.maxStringBytes && b.nodes <= RECORD_LIMITS.nodes
  }

  predicate RecordChildrenWithin(parentDepth: nat, children: nat, visited: nat, pending: nat) {
    children == 0 ||
      (parentDepth + 1 <= RECORD_LIMITS.depth && visited + pending + children <= RECORD_LIMITS.nodes)
  }

  function RecordTotals(b: RecordBudget): Totals {
    Totals(b.bytes, b.nodes, b.depth, b.maxStringBytes, b.maxKeyBytes, true)
  }

  predicate RecordAccounts(whole: Totals, b: RecordBudget, rest: Totals) {
    Join(RecordTotals(b), rest) == whole
  }

  function RecordBudgetFrom(whole: Totals): RecordBudget {
    RecordBudget(whole.bytes, whole.depth, whole.key, whole.str, whole.nodes)
  }

  function RecordCounted(b: RecordBudget, depth: nat): RecordBudget {
    b.(nodes := b.nodes + 1, depth := if depth > b.depth then depth else b.depth)
  }

  lemma RecordLeafKeepsAccounts(whole: Totals, b: RecordBudget, rest: Totals, bytes: nat, str: Option<nat>, d: nat)
    requires RecordAccounts(whole, b, Join(rest, Totals(bytes, 1, d, if str.Some? then str.value else 0, 0, true)))
    ensures var c := RecordCounted(b, d);
            RecordAccounts(whole, RecordBudget(c.bytes + bytes, c.depth, c.maxKeyBytes,
                                               if str.Some? then Max(c.maxStringBytes, str.value) else c.maxStringBytes,
                                               c.nodes), rest)
  {
  }

  lemma RecordContainerKeepsAccounts(whole: Totals, b: RecordBudget, rest: Totals, n: nat, d: nat, members: Totals,
                                     keys: nat, key: nat, pushed: Totals)
    requires RecordAccounts(whole, b, Join(rest, ContainerOf(n, d, members)))
    requires Join(KeysSeen(keys, key), pushed) == Join(rest, members)
    ensures var c := RecordCounted(b, d);
            RecordAccounts(whole, RecordBudget(c.bytes + Brackets(n) + keys, c.depth, Max(c.maxKeyBytes, key),
                                               c.maxStringBytes, c.nodes), pushed)
  {
  }

  lemma RecordExceeds(whole: Totals, b: RecordBudget, rest: Totals)
    requires RecordAccounts(whole, b, rest) && !RecordWithin(b)
    ensures !RecordWithin(RecordBudgetFrom(whole))
  {
  }

  lemma RecordCurrentExceeds(whole: Totals, b: RecordBudget, rest: Totals, current: Totals, d: nat)
    requires RecordAccounts(whole, b, Join(rest, current)) && 1 <= current.nodes && d <= current.depth
    requires !RecordWithin(RecordCounted(b, d))
    ensures !RecordWithin(RecordBudgetFrom(whole))
  {
  }

  lemma RecordChildrenExceed(whole: Totals, b: RecordBudget, rest: Totals, n: nat, d: nat, members: Totals, pending: nat)
    requires RecordAccounts(whole, b, Join(rest, ContainerOf(n, d, members))) && MembersAt(n, d, members)
    requires pending <= rest.nodes && !RecordChildrenWithin(d, n, b.nodes + 1, pending)
    ensures !RecordWithin(RecordBudgetFrom(whole))
  {
  }

  /** One number that doubles do not hold exactly spoils the whole. */
  lemma UnsafeNumberSpoils(whole: Totals, b: RecordBudget, rest: Totals, current: Totals)
    requires RecordAccounts(whole, b, Join(rest, current)) && !current.safe
    ensures !whole.safe
  {
  }

  lemma RecordStart(whole: Totals)
    ensures RecordAccounts(whole, RecordBudget(0, 0, 0, 0, 0), whole)
  {
  }

  lemma RecordDescends(whole: Totals, b: RecordBudget, rest: Totals, current: Totals)
    requires RecordAccounts(whole, b, Join(rest, current)) && 1 <= current.nodes
    ensures b.nodes < whole.nodes
  {
  }

  lemma RecordNothingLeft(whole: Totals, b: RecordBudget)
    requires RecordAccounts(whole, b, NOTHING)
    ensures b == RecordBudgetFrom(whole) && whole.safe
  {
  }

  lemma WholeRecord(v: Json)
    ensures RecordBudgetFrom(TotalOf(v, 0)) == RecordBudgetOf(v) && TotalOf(v, 0).safe == SafeNumbers(v)
  {
    hide Utf8Length, Print, LongestString, LongestKey, SafeNumbers, Nodes, Depth;
  }

  /** Refused exactly when a total is too large or some number is not a safe integer. */
  method ActivationRecordV2Budget(root: Json) returns (r: Option<RecordBudget>, peak: nat)
    ensures r == if RecordWithin(RecordBudgetOf(root)) && SafeNumbers(root) then Some(RecordBudgetOf(root)) else None
    ensures r.Some? ==> r.value.bytes == Cost(root)
    ensures peak <= RECORD_LIMITS.nodes
  {
    hide PendingTotal, MembersTotal, TotalOf, Join, RecordAccounts, Print, Utf8Length, RecordBudgetOf, RecordBudgetFrom,
         SafeNumbers, Safe, Cost, IsNumber, ContainerOf, MembersAt;
    var stack := [Pending(0, root)];
    var b := RecordBudget(0, 0, 0, 0, 0);
    peak := 1;
    ghost var whole := TotalOf(root, 0);
    WholeRecord(root);
    OnePending(Pending(0, root));
    RecordStart(whole);
    while stack != []
      invariant RecordAccounts(whole, b, PendingTotal(stack))
      invariant RecordWithin(b)
      invariant |stack| <= peak <= RECORD_LIMITS.nodes
      decreases whole.nodes - b.nodes
    {
      Pop(stack);
      var current := stack[|stack| - 1];
      stack := stack[..|stack| - 1];
      ghost var before, rest, self := b, PendingTotal(stack), TotalOf(current.value, current.depth);
      TotalAtLeast(current.value, current.depth);
      RecordDescends(whole, before, rest, self);
      b := RecordCounted(b, current.depth);
      if !RecordWithin(b) {
        RecordCurrentExceeds(whole, before, rest, self, current.depth);
        return None, peak;
      }
      var value := current.value;
      if value.Number? && !Safe(value.text) {
        LeafTotal(value, current.depth);
        UnsafeNumberSpoils(whole, before, rest, self);
        return None, peak;
      }
      if Container(value) {
        ghost var members := MembersTotal(value.members, |value.members|, value.Obj?, current.depth + 1);
        ContainerTotal(value, current.depth);
        MembersAreAt(value.members, value.Obj?, current.depth);
        b := b.(bytes := b.bytes + Brackets(|value.members|));
        if !RecordChildrenWithin(current.depth, |value.members|, b.nodes, |stack|) {
          RecordChildrenExceed(whole, before, rest, |value.members|, current.depth, members, |stack|);
          return None, peak;
        }
        var keyBytes, longestKey;
        stack, keyBytes, longestKey := PushMembers(stack, value.members, value.Obj?, current.depth);
        RecordContainerKeepsAccounts(whole, before, rest, |value.members|, current.depth, members, keyBytes, longestKey,
                                     PendingTotal(stack));
        b := b.(bytes := b.bytes + keyBytes, maxKeyBytes := Max(b.maxKeyBytes, longestKey));
        peak := Max(peak, |stack|);
      } else {
        var bytes := Utf8Length(Print(value));
        LeafTotal(value, current.depth);
        RecordLeafKeepsAccounts(whole, before, rest, bytes, if value.Str? then Some(Utf8Length(value.chars)) else None,
                                current.depth);
        b := b.(bytes := b.bytes + bytes);
        if value.Str? {
          b := b.(maxStringBytes := Max(b.maxStringBytes, Utf8Length(value.chars)));
        }
      }
      if !RecordWithin(b) {
        RecordExceeds(whole, b, PendingTotal(stack));
        return None, peak;
      }
    }
    NonePending();
    RecordNothingLeft(whole, b);
    BudgetCosts(root);
    r := Some(b);
  }
}
