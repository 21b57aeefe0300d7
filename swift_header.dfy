/**
 * The generated `<target>-Swift.h` header exists once per build tree.  The
 * builder merges the simulator copy and the device copy into one header whose
 * two halves a `#if TARGET_IPHONE_SIMULATOR` gate selects between.  This module
 * gives the merged line sequence, the lines Ruby's `IO#puts` writes for the
 * array the builder assembles, and a small preprocessor that resolves the gate,
 * so that the merge can be shown to hand each environment its own header back.
 */
module SwiftHeader {
  import opened Results
  import opened Sequences

  const SimOpen := "// 开始模拟器"
  const Gate := "#if TARGET_IPHONE_SIMULATOR"
  const SimClose := "// 结束模拟器"
  const Else := "#else"
  const DevOpen := "// 开始真机"
  const DevClose := "// 结束真机"
  const EndIf := "#endif"

  /** One element of the array the builder fills: a line, or a whole array of lines appended with `<<`. */
  datatype Item = Line(text: string) | Lines(texts: seq<string>)

  /** What `IO#puts` writes for one element: an array writes its lines, and an empty array one empty line. */
  function Puts(item: Item): (r: seq<string>)
    ensures |r| >= 1
    ensures item.Lines? && item.texts != [] ==> r == item.texts
  {
    match item
    case Line(t) => [t]
    case Lines(ts) => if ts == [] then [""] else ts
  }

  /** The lines written by putting each element in turn. */
  function Written(items: seq<Item>): seq<string>
    decreases |items|
  {
    if items == [] then [] else Written(items[..|items| - 1]) + Puts(items[|items| - 1])
  }

  /** Puts each element in turn: the lines a file written this way holds. */
  method PutEach(items: seq<Item>) returns (written: seq<string>)
    ensures written == Written(items)
  {
    written := [];
    for k := 0 to |items|
      invariant written == Written(items[..k])
    {
      assert items[..k + 1][..k] == items[..k];
      written := written + Puts(items[k]);
    }
    assert items[..|items|] == items;
  }

  /** The device half as written: the device header's lines, or one empty line when it has none. */
  function DeviceBody(device: seq<string>): (r: seq<string>)
    ensures device != [] ==> r == device
    ensures device == [] ==> r == [""]
  {
    Puts(Lines(device))
  }

  /** The merged header: the simulator lines under the gate, the device lines under `#else`. */
  function Merged(sim: seq<string>, device: seq<string>): (r: seq<string>)
    ensures device != [] ==> |r| == |sim| + |device| + 7
    ensures device == [] ==> |r| == |sim| + 8
  {
    [SimOpen, Gate] + sim + [SimClose, Else, DevOpen] + DeviceBody(device) + [DevClose, EndIf]
  }

  /**
   * Where each line of the merged header comes from: every simulator line sits,
   * in order, between the gate and `#else`, every device line between `#else`
   * and `#endif`; nothing else is between them but the marker comments.
   */
  lemma MergedLayout(sim: seq<string>, device: seq<string>)
    ensures var r := Merged(sim, device);
      var d := |DeviceBody(device)|;
      r[0] == SimOpen && r[1] == Gate &&
      (forall i :: 0 <= i < |sim| ==> r[2 + i] == sim[i]) &&
      r[2 + |sim|] == SimClose && r[3 + |sim|] == Else && r[4 + |sim|] == DevOpen &&
      (forall j :: 0 <= j < |device| ==> r[5 + |sim| + j] == device[j]) &&
      r[5 + |sim| + d] == DevClose && r[6 + |sim| + d] == EndIf
  {
  }

  lemma {:induction false} WrittenAppend(a: seq<Item>, b: seq<Item>)
    ensures Written(a + b) == Written(a) + Written(b)
    decreases |b|
  {
    if b == [] {
      assert a + b == a;
    } else {
      var b' := b[..|b| - 1];
      assert (a + b)[..|a + b| - 1] == a + b';
      assert (a + b)[|a + b| - 1] == b[|b| - 1];
      WrittenAppend(a, b');
    }
  }

  /** Lines turned into single-line elements are written back as the same lines. */
  lemma {:induction false} WrittenLines(lines: seq<string>)
    ensures Written(seq(|lines|, i requires 0 <= i < |lines| => Line(lines[i]))) == lines
    decreases |lines|
  {
    if lines != [] {
      var init := lines[..|lines| - 1];
      var items := seq(|lines|, i requires 0 <= i < |lines| => Line(lines[i]));
      assert items[..|items| - 1] == seq(|init|, i requires 0 <= i < |init| => Line(init[i]));
      WrittenLines(init);
      assert init + [lines[|lines| - 1]] == lines;
    }
  }

  /** The elements after the simulator lines are written as the markers around the device half. */
  lemma WrittenTail(device: seq<string>)
    ensures Written([Line(SimClose), Line(Else), Line(DevOpen), Lines(device), Line(DevClose), Line(EndIf)])
      == [SimClose, Else, DevOpen] + DeviceBody(device) + [DevClose, EndIf]
  {
    var tail := [Line(SimClose), Line(Else), Line(DevOpen), Lines(device), Line(DevClose), Line(EndIf)];
    var t1, t2, t3, t4, t5 := tail[..1], tail[..2], tail[..3], tail[..4], tail[..5];
    assert t1[..0] == [];
    assert Written(t1) == [SimClose];
    assert t2[..1] == t1;
    assert Written(t2) == [SimClose, Else];
    assert t3[..2] == t2;
    assert Written(t3) == [SimClose, Else, DevOpen];
    assert t4[..3] == t3;
    assert Written(t4) == [SimClose, Else, DevOpen] + DeviceBody(device);
    assert t5[..4] == t4;
    assert Written(t5) == [SimClose, Else, DevOpen] + DeviceBody(device) + [DevClose];
    assert tail[..5] == t5;
  }

  /** The array the builder assembles, written out line by line, is exactly the merged header. */
  lemma MergedItems(sim: seq<string>, device: seq<string>)
    ensures Written(
      [Line(SimOpen), Line(Gate)] + seq(|sim|, i requires 0 <= i < |sim| => Line(sim[i])) +
      [Line(SimClose), Line(Else), Line(DevOpen), Lines(device), Line(DevClose), Line(EndIf)])
      == Merged(sim, device)
  {
    var simItems := seq(|sim|, i requires 0 <= i < |sim| => Line(sim[i]));
    var head := [Line(SimOpen), Line(Gate)];
    var tail := [Line(SimClose), Line(Else), Line(DevOpen), Lines(device), Line(DevClose), Line(EndIf)];
    WrittenAppend(head + simItems, tail);
    WrittenAppend(head, simItems);
    WrittenLines(sim);
    assert Written(head) == [SimOpen, Gate] by {
      assert head[..1] == [Line(SimOpen)] && [Line(SimOpen)][..0] == [];
      assert Written(head[..1]) == [SimOpen];
    }
    WrittenTail(device);
    var simHalf := [SimOpen, Gate] + sim;
    var opening := [SimClose, Else, DevOpen];
    Regroup(simHalf, opening, DeviceBody(device));
    Regroup(simHalf, opening + DeviceBody(device), [DevClose, EndIf]);
  }

  // A small model of the C preprocessor's conditional directives, enough to
  // resolve the gate.  A line opens a conditional if it starts with `#if`
  // (`#if`, `#ifdef`, `#ifndef`), switches branch if it starts with `#el`
  // (`#else`, `#elif`) and closes one if it starts with `#endif`.

  predicate Opens(line: string) {
    |line| >= 3 && line[0] == '#' && line[1] == 'i' && line[2] == 'f'
  }
  predicate Switches(line: string) {
    |line| >= 3 && line[0] == '#' && line[1] == 'e' && line[2] == 'l'
  }
  predicate Closes(line: string) {
    |line| >= 6 && line[0] == '#' && line[1] == 'e' && line[2] == 'n' && line[3] == 'd' && line[4] == 'i' && line[5] == 'f'
  }

  function Shift(o: Option<nat>, n: nat): Option<nat> {
    match o
    case None => None
    case Some(i) => Some(i + n)
  }

  /**
   * The index of the line that ends the current branch: the first `#el...` or
   * `#endif` not inside a conditional opened after the branch began (`depth`
   * counts those still open).
   */
  function BranchEnd(lines: seq<string>, depth: nat): (r: Option<nat>)
    ensures r.Some? ==> r.value < |lines| && (Switches(lines[r.value]) || Closes(lines[r.value]))
    decreases |lines|
  {
    if lines == [] then None
    else if Opens(lines[0]) then Shift(BranchEnd(lines[1..], depth + 1), 1)
    else if depth == 0 && (Switches(lines[0]) || Closes(lines[0])) then Some(0)
    else if Closes(lines[0]) then Shift(BranchEnd(lines[1..], depth - 1), 1)
    else Shift(BranchEnd(lines[1..], depth), 1)
  }

  /** Read from nesting depth `d`, the lines never end the enclosing branch and leave depth `e` open. */
  predicate Nested(lines: seq<string>, d: nat, e: nat)
    decreases |lines|
  {
    if lines == [] then d == e
    else if Opens(lines[0]) then Nested(lines[1..], d + 1, e)
    else if d == 0 && (Switches(lines[0]) || Closes(lines[0])) then false
    else if Closes(lines[0]) then Nested(lines[1..], d - 1, e)
    else Nested(lines[1..], d, e)
  }

  /** Every conditional the header opens, it closes, and it never closes one it did not open. */
  predicate Balanced(lines: seq<string>) { Nested(lines, 0, 0) }

  /** Lines that are balanced from depth `d` are skipped whole when looking for the branch's end. */
  lemma {:induction false} BranchEndSkips(a: seq<string>, rest: seq<string>, d: nat, e: nat)
    requires Nested(a, d, e)
    ensures BranchEnd(a + rest, d) == Shift(BranchEnd(rest, e), |a|)
    decreases |a|
  {
    if a == [] {
      assert a + rest == rest;
      assert Shift(BranchEnd(rest, e), 0) == BranchEnd(rest, e);
    } else {
      assert (a + rest)[0] == a[0] && (a + rest)[1..] == a[1..] + rest;
      if Opens(a[0]) {
        BranchEndSkips(a[1..], rest, d + 1, e);
      } else if Closes(a[0]) {
        BranchEndSkips(a[1..], rest, d - 1, e);
      } else {
        BranchEndSkips(a[1..], rest, d, e);
      }
    }
  }

  /**
   * The lines the compiler sees once the first `#if TARGET_IPHONE_SIMULATOR`
   * gate is resolved for the simulator (`simulator`) or for a device; `None`
   * when the gate is missing, has no plain `#else` or is never closed.
   */
  function Resolve(header: seq<string>, simulator: bool): Option<seq<string>>
    decreases |header|
  {
    if header == [] then None
    else if header[0] != Gate then
      match Resolve(header[1..], simulator)
      case None => None
      case Some(t) => Some([header[0]] + t)
    else
      var body := header[1..];
      match BranchEnd(body, 0)
      case None => None
      case Some(i) =>
        if body[i] != Else then None
        else
          var rest := body[i + 1..];
          match BranchEnd(rest, 0)
          case None => None
          case Some(j) =>
            if !Closes(rest[j]) then None
            else Some((if simulator then body[..i] else rest[..j]) + rest[j + 1..])
  }

  lemma MarkersAreNotDirectives()
    ensures !Opens(SimOpen) && !Switches(SimOpen) && !Closes(SimOpen)
    ensures !Opens(SimClose) && !Switches(SimClose) && !Closes(SimClose)
    ensures !Opens(DevOpen) && !Switches(DevOpen) && !Closes(DevOpen)
    ensures !Opens(DevClose) && !Switches(DevClose) && !Closes(DevClose)
    ensures !Opens("") && !Switches("") && !Closes("")
    ensures Switches(Else) && !Opens(Else) && !Closes(Else)
    ensures Closes(EndIf) && !Opens(EndIf) && !Switches(EndIf)
    ensures SimOpen != Gate
  {
    assert SimOpen[0] == '/' && SimClose[0] == '/' && DevOpen[0] == '/' && DevClose[0] == '/';
  }

  /** A balanced half followed by its closing marker and a branch line ends at that branch line. */
  lemma HalfEnds(half: seq<string>, marker: string, switch: string, after: seq<string>)
    requires Balanced(half)
    requires !Opens(marker) && !Switches(marker) && !Closes(marker)
    requires (Switches(switch) || Closes(switch)) && !Opens(switch)
    ensures BranchEnd(half + ([marker, switch] + after), 0) == Some(|half| + 1)
  {
    var tail := [marker, switch] + after;
    assert tail[1..][0] == switch;
    assert BranchEnd(tail[1..], 0) == Some(0);
    assert BranchEnd(tail, 0) == Some(1);
    BranchEndSkips(half, tail, 0, 0);
  }

  /** What follows the simulator half's `#else`: the device half and the closing lines. */
  function DeviceHalf(device: seq<string>): seq<string> {
    [DevOpen] + DeviceBody(device) + [DevClose, EndIf]
  }

  lemma MergedBody(sim: seq<string>, device: seq<string>)
    ensures Merged(sim, device)[2..] == sim + ([SimClose, Else] + DeviceHalf(device))
  {
  }

  /** The simulator half ends at the `#else` after its closing marker. */
  lemma SimulatorHalfEnds(sim: seq<string>, device: seq<string>)
    requires Balanced(sim)
    ensures var body := sim + ([SimClose, Else] + DeviceHalf(device));
      BranchEnd(body, 0) == Some(|sim| + 1) && body[|sim| + 1] == Else &&
      body[..|sim| + 1] == sim + [SimClose] && body[|sim| + 2..] == DeviceHalf(device)
  {
    MarkersAreNotDirectives();
    HalfEnds(sim, SimClose, Else, DeviceHalf(device));
  }

  /** The device half ends at the `#endif` after its closing marker, and nothing follows. */
  lemma DeviceHalfEnds(device: seq<string>)
    requires Balanced(DeviceBody(device))
    ensures var rest := DeviceHalf(device);
      var j := |DeviceBody(device)| + 2;
      BranchEnd(rest, 0) == Some(j) && j < |rest| && Closes(rest[j]) &&
      rest[..j] == [DevOpen] + DeviceBody(device) + [DevClose] && rest[j + 1..] == []
  {
    MarkersAreNotDirectives();
    var dev := DeviceBody(device);
    var rest := DeviceHalf(device);
    assert rest[1..] == dev + ([DevClose, EndIf] + []);
    HalfEnds(dev, DevClose, EndIf, []);
    assert BranchEnd(rest, 0) == Shift(BranchEnd(rest[1..], 0), 1);
  }

  /** Resolving the gate that opens the merged header (after its first marker) keeps one half. */
  lemma GateResolves(sim: seq<string>, device: seq<string>, simulator: bool)
    requires Balanced(sim) && Balanced(DeviceBody(device))
    ensures Resolve(Merged(sim, device)[1..], simulator) ==
      Some(if simulator then sim + [SimClose] else [DevOpen] + DeviceBody(device) + [DevClose])
  {
    MergedBody(sim, device);
    SimulatorHalfEnds(sim, device);
    DeviceHalfEnds(device);
    var m := Merged(sim, device);
    var body := m[2..];
    var i := |sim| + 1;
    var rest := body[i + 1..];
    var j := |DeviceBody(device)| + 2;
    assert m[1..][0] == Gate && m[1..][1..] == body;
    assert rest == DeviceHalf(device);
    assert body[..i] + rest[j + 1..] == body[..i];
    assert rest[..j] + rest[j + 1..] == rest[..j];
  }

  /** The empty line that stands for an empty device header is not a directive. */
  lemma DeviceBodyBalanced(device: seq<string>)
    requires Balanced(device)
    ensures Balanced(DeviceBody(device))
  {
    if device == [] {
      assert DeviceBody(device) == [""];
      assert Nested([""][1..], 0, 0);
    }
  }

  lemma MergedResolvesOn(sim: seq<string>, device: seq<string>, simulator: bool)
    requires Balanced(sim) && Balanced(DeviceBody(device))
    ensures Resolve(Merged(sim, device), simulator) ==
      Some([SimOpen] + if simulator then sim + [SimClose] else [DevOpen] + DeviceBody(device) + [DevClose])
  {
    var m := Merged(sim, device);
    assert m[0] == SimOpen && SimOpen[0] != Gate[0];
    GateResolves(sim, device, simulator);
  }

  /**
   * Resolving the merged header's gate gives back the simulator header on the
   * simulator and the device part on a device (the device header, or one empty
   * line for an empty one), framed only by the marker comments, provided each
   * header keeps its own conditionals balanced.
   */
  lemma MergedResolves(sim: seq<string>, device: seq<string>)
    requires Balanced(sim) && Balanced(device)
    ensures Resolve(Merged(sim, device), true) == Some([SimOpen] + sim + [SimClose])
    ensures Resolve(Merged(sim, device), false) == Some([SimOpen, DevOpen] + DeviceBody(device) + [DevClose])
  {
    DeviceBodyBalanced(device);
    MergedResolvesOn(sim, device, true);
    MergedResolvesOn(sim, device, false);
    assert [SimOpen] + (sim + [SimClose]) == [SimOpen] + sim + [SimClose];
    assert [SimOpen] + ([DevOpen] + DeviceBody(device) + [DevClose]) == [SimOpen, DevOpen] + DeviceBody(device) + [DevClose];
  }

  /**
   * Merging again, without fresh per-environment headers, wraps the already
   * merged header as the device half once more: the result is longer and holds
   * the first merge whole in its device branch.
   */
  lemma MergeTwiceNests(sim: seq<string>, device: seq<string>)
    ensures var once := Merged(sim, device);
      var twice := Merged(sim, once);
      |twice| == |once| + |sim| + 7 &&
      twice[5 + |sim|..5 + |sim| + |once|] == once &&
      twice != once
  {
  }
}
