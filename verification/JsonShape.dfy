/** The iterative shape check of parsed JSON against the recursive definition of its limits. */
module JsonShape {
  import opened Utf8

  const MAX_NESTING: nat := 64
  const MAX_NODES: nat := 100_000
  const MAX_MEMBERS: nat := 10_000
  const MAX_STRING_BYTES: nat := 1024 * 1024

  datatype Json =
    | Plain
    | Text(text: string)
    | Object(members: seq<Member>)
    | Array(items: seq<Json>)

  datatype Member = Member(key: string, value: Json)

  // ----------------------------------------------------- recursive limits

  /** All values in a value, itself included. */
  function Nodes(v: Json): (n: nat)
    ensures n >= 1
  {
    match v
    case Plain => 1
    case Text(_) => 1
    case Object(members) => 1 + MemberNodes(members)
    case Array(items) => 1 + ItemNodes(items)
  }

  function MemberNodes(members: seq<Member>): nat {
    if members == [] then 0 else Nodes(members[0].value) + MemberNodes(members[1..])
  }

  function ItemNodes(items: seq<Json>): nat {
    if items == [] then 0 else Nodes(items[0]) + ItemNodes(items[1..])
  }

  /** How deeply containers are nested in a value. */
  function Depth(v: Json): nat {
    match v
    case Plain => 0
    case Text(_) => 0
    case Object(members) => 1 + MemberDepth(members)
    case Array(items) => 1 + ItemDepth(items)
  }

  function Larger(a: nat, b: nat): nat {
    if a < b then b else a
  }

  function MemberDepth(members: seq<Member>): nat {
    if members == [] then 0 else Larger(Depth(members[0].value), MemberDepth(members[1..]))
  }

  function ItemDepth(items: seq<Json>): nat {
    if items == [] then 0 else Larger(Depth(items[0]), ItemDepth(items[1..]))
  }

  predicate StringFits(s: string) {
    ByteLength(s) <= MAX_STRING_BYTES
  }

  /** Every container has few enough members and every string and key is short enough. */
  predicate PartsFit(v: Json) {
    match v
    case Plain => true
    case Text(text) => StringFits(text)
    case Object(members) => |members| <= MAX_MEMBERS && MembersFit(members)
    case Array(items) => |items| <= MAX_MEMBERS && ItemsFit(items)
  }

  predicate MembersFit(members: seq<Member>) {
    members == [] || (StringFits(members[0].key) && PartsFit(members[0].value) && MembersFit(members[1..]))
  }

  predicate ItemsFit(items: seq<Json>) {
    items == [] || (PartsFit(items[0]) && ItemsFit(items[1..]))
  }

  lemma {:induction false} AsciiLength(n: nat)
    ensures ByteLength(seq(n, _ => 'a')) == n
    decreases n
  {
    if n > 0 {
      AsciiLength(n - 1);
      assert seq(n, _ => 'a')[1..] == seq(n - 1, _ => 'a');
    }
  }

  lemma {:induction false} PlainItems(n: nat)
    ensures ItemsFit(seq(n, _ => Plain)) && ItemDepth(seq(n, _ => Plain)) == 0 && ItemNodes(seq(n, _ => Plain)) == n
    decreases n
  {
    if n > 0 {
      PlainItems(n - 1);
      assert seq(n, _ => Plain)[1..] == seq(n - 1, _ => Plain);
    }
  }

  /** The limits are inclusive: a string of a mebibyte and an array of ten thousand items are the
      largest that fit. */
  lemma LimitsAreInclusive(n: nat)
    ensures PartsFit(Text(seq(n, _ => 'a'))) <==> n <= 1_048_576
    ensures PartsFit(Array(seq(n, _ => Plain))) <==> n <= 10_000
    ensures Nodes(Array(seq(n, _ => Plain))) == n + 1 && Depth(Array(seq(n, _ => Plain))) == 1
  {
    AsciiLength(n);
    PlainItems(n);
  }

  // ------------------------------------------------------------- the stack

  datatype Entry = Entry(value: Json, depth: nat)

  function StackNodes(stack: seq<Entry>): nat {
    if stack == [] then 0 else Nodes(stack[|stack| - 1].value) + StackNodes(stack[..|stack| - 1])
  }

  predicate EntryOk(e: Entry) {
    e.depth + Depth(e.value) <= MAX_NESTING && PartsFit(e.value)
  }

  predicate StackOk(stack: seq<Entry>) {
    forall k :: 0 <= k < |stack| ==> EntryOk(stack[k])
  }

  lemma {:induction false} StackNodesOfPush(stack: seq<Entry>, items: seq<Json>, depth: nat)
    ensures StackNodes(stack + PushedItems(items, depth)) == StackNodes(stack) + ItemNodes(items)
    decreases |items|
  {
    if items == [] {
      assert stack + PushedItems(items, depth) == stack;
    } else {
      var first := Entry(items[0], depth);
      assert stack + PushedItems(items, depth) == (stack + [first]) + PushedItems(items[1..], depth);
      StackNodesOfPush(stack + [first], items[1..], depth);
      assert (stack + [first])[..|stack|] == stack;
    }
  }

  function PushedItems(items: seq<Json>, depth: nat): seq<Entry> {
    seq(|items|, k requires 0 <= k < |items| => Entry(items[k], depth))
  }

  function Values(members: seq<Member>): seq<Json> {
    seq(|members|, k requires 0 <= k < |members| => members[k].value)
  }

  lemma {:induction false} MembersAreItems(members: seq<Member>)
    ensures MemberNodes(members) == ItemNodes(Values(members))
    ensures MemberDepth(members) == ItemDepth(Values(members))
    ensures MembersFit(members) <==> ItemsFit(Values(members)) && forall k :: 0 <= k < |members| ==> StringFits(members[k].key)
  {
    if members != [] {
      assert Values(members)[1..] == Values(members[1..]);
      MembersAreItems(members[1..]);
      assert MembersFit(members) ==> forall k :: 1 <= k < |members| ==> members[k] == members[1..][k - 1];
    }
  }

  lemma {:induction false} ItemsOk(items: seq<Json>, depth: nat)
    ensures StackOk(PushedItems(items, depth)) <==> (items == [] || depth + ItemDepth(items) <= MAX_NESTING) && ItemsFit(items)
  {
    if items != [] {
      ItemsOk(items[1..], depth);
      var pushed := PushedItems(items, depth);
      assert pushed[0] == Entry(items[0], depth);
      assert pushed[1..] == PushedItems(items[1..], depth);
      assert StackOk(pushed) <==> EntryOk(pushed[0]) && StackOk(pushed[1..]) by {
        if EntryOk(pushed[0]) && StackOk(pushed[1..]) {
          forall k | 0 <= k < |pushed|
            ensures EntryOk(pushed[k])
          {
            assert k > 0 ==> pushed[k] == pushed[1..][k - 1];
          }
        }
        if StackOk(pushed) {
          forall k | 0 <= k < |pushed[1..]|
            ensures EntryOk(pushed[1..][k])
          {
            assert pushed[1..][k] == pushed[k + 1];
          }
        }
      }
    }
  }

  lemma StackOkOfConcat(a: seq<Entry>, b: seq<Entry>)
    ensures StackOk(a + b) <==> StackOk(a) && StackOk(b)
  {
    if StackOk(a + b) {
      forall k | 0 <= k < |b|
        ensures EntryOk(b[k])
      {
        assert (a + b)[|a| + k] == b[k];
      }
      forall k | 0 <= k < |a|
        ensures EntryOk(a[k])
      {
        assert (a + b)[k] == a[k];
      }
    }
  }

  function Children(v: Json): seq<Json> {
    match v
    case Plain => []
    case Text(_) => []
    case Object(members) => Values(members)
    case Array(items) => items
  }

  /** What the loop tests of one value itself. */
  predicate SelfOk(e: Entry) {
    match e.value
    case Plain => true
    case Text(text) => StringFits(text)
    case Object(members) =>
      e.depth < MAX_NESTING && |members| <= MAX_MEMBERS && forall k :: 0 <= k < |members| ==> StringFits(members[k].key)
    case Array(items) => e.depth < MAX_NESTING && |items| <= MAX_MEMBERS
  }

  /** A value is within the limits if it is so itself and its children are, one level down. */
  lemma EntryIsItsChildren(e: Entry)
    requires e.depth <= MAX_NESTING
    ensures EntryOk(e) <==> SelfOk(e) && StackOk(PushedItems(Children(e.value), e.depth + 1))
    ensures Nodes(e.value) == 1 + ItemNodes(Children(e.value))
  {
    ItemsOk(Children(e.value), e.depth + 1);
    match e.value
    case Plain => assert ItemsFit([]);
    case Text(_) => assert ItemsFit([]);
    case Object(members) =>
      MembersAreItems(members);
      assert members == [] ==> ItemDepth(Values(members)) == 0;
      assert (members == []) == (Values(members) == []);
    case Array(items) => assert items == [] ==> ItemDepth(items) == 0;
  }

  predicate DepthsOk(stack: seq<Entry>) {
    forall k :: 0 <= k < |stack| ==> stack[k].depth <= MAX_NESTING
  }

  /** One turn of the loop, on a value that passes its own tests. */
  lemma TurnKeepsCount(rest: seq<Entry>, top: Entry)
    requires top.depth <= MAX_NESTING && SelfOk(top)
    ensures var grown := rest + PushedItems(Children(top.value), top.depth + 1);
      && StackNodes(grown) + 1 == StackNodes(rest + [top])
      && (StackOk(grown) <==> StackOk(rest + [top]))
  {
    var pushed := PushedItems(Children(top.value), top.depth + 1);
    EntryIsItsChildren(top);
    StackNodesOfPush(rest, Children(top.value), top.depth + 1);
    assert (rest + [top])[..|rest|] == rest;
    StackOkOfConcat(rest, pushed);
    StackOkOfConcat(rest, [top]);
    assert StackOk([top]) <==> EntryOk(top) by {
      assert [top][0] == top;
    }
  }

  lemma FailureIsReal(rest: seq<Entry>, top: Entry)
    requires top.depth <= MAX_NESTING && !SelfOk(top)
    ensures !StackOk(rest + [top])
  {
    EntryIsItsChildren(top);
    assert (rest + [top])[|rest|] == top;
  }

  /** `_check_json_shape`: accepts exactly the values within the limits, and ends on every value. */
  method CheckShape(v: Json) returns (accepted: bool)
    ensures accepted <==> Nodes(v) <= MAX_NODES && Depth(v) <= MAX_NESTING && PartsFit(v)
  {
    var nodes := 0;
    var stack := [Entry(v, 0)];
    assert StackNodes(stack) == Nodes(v) by {
      assert stack[..0] == [];
    }
    assert StackOk(stack) <==> EntryOk(stack[0]);
    while stack != []
      invariant nodes <= MAX_NODES && DepthsOk(stack)
      invariant nodes + StackNodes(stack) == Nodes(v)
      invariant StackOk(stack) <==> Depth(v) <= MAX_NESTING && PartsFit(v)
      decreases StackNodes(stack)
    {
      var top, rest := stack[|stack| - 1], stack[..|stack| - 1];
      assert stack == rest + [top];
      nodes := nodes + 1;
      if nodes > MAX_NODES {
        return false;
      }
      var ok;
      ok, stack := VisitValue(rest, top);
      if !ok {
        FailureIsReal(rest, top);
        return false;
      }
      TurnKeepsCount(rest, top);
    }
    return true;
  }

  /** The body of the loop: test one value and push its children. */
  method VisitValue(rest: seq<Entry>, top: Entry) returns (ok: bool, stack: seq<Entry>)
    requires DepthsOk(rest) && top.depth <= MAX_NESTING
    ensures ok <==> SelfOk(top)
    ensures ok ==> stack == rest + PushedItems(Children(top.value), top.depth + 1) && DepthsOk(stack)
  {
    stack := rest;
    match top.value {
      case Plain =>
      case Text(text) =>
        if !StringFits(text) {
          return false, stack;
        }
      case Object(members) =>
        if top.depth >= MAX_NESTING || |members| > MAX_MEMBERS {
          return false, stack;
        }
        var pushed := PushMembers(stack, members, top.depth + 1);
        if pushed.None? {
          return false, stack;
        }
        stack := pushed.value;
      case Array(items) =>
        if top.depth >= MAX_NESTING || |items| > MAX_MEMBERS {
          return false, stack;
        }
        stack := stack + PushedItems(items, top.depth + 1);
    }
    return true, stack;
  }

  datatype Pushed = None | Some(value: seq<Entry>)

  /** The inner loop over an object's members; None if a key is too long. */
  method PushMembers(stack: seq<Entry>, members: seq<Member>, depth: nat) returns (pushed: Pushed)
    ensures pushed.Some? <==> forall k :: 0 <= k < |members| ==> StringFits(members[k].key)
    ensures pushed.Some? ==> pushed.value == stack + PushedItems(Values(members), depth)
  {
    var grown := stack;
    for n := 0 to |members|
      invariant grown == stack + PushedItems(Values(members), depth)[..n]
      invariant forall k :: 0 <= k < n ==> StringFits(members[k].key)
    {
      if !StringFits(members[n].key) {
        return None;
      }
      grown := grown + [Entry(members[n].value, depth)];
    }
    assert PushedItems(Values(members), depth)[..|members|] == PushedItems(Values(members), depth);
    return Some(grown);
  }
}
