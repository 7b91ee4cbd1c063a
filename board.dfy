/**
 * The drawing board of client/components/Board.tsx: the stroke log with its
 * mouse handlers and remote `canvas-data` / `clear` handlers, the chat log,
 * and the SVG text the "</>" button generates. Pointer positions are
 * integers; stroke ids are supplied by the caller (fresh uuids).
 */
module Board {
  import opened Wrappers
  import opened Strings

  datatype Tool = Pen | Eraser | Hand

  /** One line on the board: its id, the tool, the flat list x0, y0, x1, y1, ... and its style. */
  datatype Stroke = Stroke(id: string, tool: Tool, points: seq<int>, color: string, width: int)

  datatype Point = Point(x: int, y: int)

  datatype ChatMessage = ChatMessage(text: string, sender: string, email: string, time: string)

  /** The signed-in user as the board sees it; absent fields are `None`. */
  datatype User = User(displayName: Option<string>, email: Option<string>)

  /** The stroke a mouse-down starts: one point, red and thin for the pen, white and wide for the eraser. */
  function NewStroke(id: string, tool: Tool, p: Point): (s: Stroke)
    requires tool != Hand
    ensures s.id == id && s.tool == tool && s.points == [p.x, p.y]
    ensures tool == Pen ==> s.color == "#df4b26" && s.width == 5
    ensures tool == Eraser ==> s.color == "#ffffff" && s.width == 20
  {
    Stroke(id, tool, [p.x, p.y], if tool == Eraser then "#ffffff" else "#df4b26", if tool == Eraser then 20 else 5)
  }

  /** The log after a mouse-move at `p`: the last stroke, whoever drew it, gains the point. */
  function MoveLast(lines: seq<Stroke>, p: Point): (r: seq<Stroke>)
    requires lines != []
    ensures |r| == |lines| && r[..|r| - 1] == lines[..|lines| - 1]
    ensures var last := lines[|lines| - 1];
      r[|r| - 1] == Stroke(last.id, last.tool, last.points + [p.x, p.y], last.color, last.width)
  {
    var last := lines[|lines| - 1];
    lines[..|lines| - 1] + [last.(points := last.points + [p.x, p.y])]
  }

  /** The coordinates of `pts`, flattened in order. */
  function Flatten(pts: seq<Point>): (r: seq<int>)
    ensures |r| == 2 * |pts|
  {
    if pts == [] then [] else Flatten(pts[..|pts| - 1]) + [pts[|pts| - 1].x, pts[|pts| - 1].y]
  }

  /** The log after a run of mouse-moves with no other event in between. */
  function Drag(lines: seq<Stroke>, pts: seq<Point>): (r: seq<Stroke>)
    requires lines != []
    ensures |r| == |lines|
  {
    if pts == [] then lines else MoveLast(Drag(lines, pts[..|pts| - 1]), pts[|pts| - 1])
  }

  /** A drag appends every point, in order, to the last stroke and touches nothing else. */
  lemma {:induction false} DragFlattens(lines: seq<Stroke>, pts: seq<Point>)
    requires lines != []
    ensures var r := Drag(lines, pts);
      |r| == |lines| && r[..|r| - 1] == lines[..|lines| - 1] &&
      r[|r| - 1] == lines[|lines| - 1].(points := lines[|lines| - 1].points + Flatten(pts))
    decreases |pts|
  {
    if pts != [] {
      DragFlattens(lines, pts[..|pts| - 1]);
    }
  }

  /** A mouse-down at `p0` followed by moves through `pts` draws exactly the points p0, pts, in order. */
  lemma StrokePointsInOrder(lines: seq<Stroke>, id: string, tool: Tool, p0: Point, pts: seq<Point>)
    requires tool != Hand
    ensures var r := Drag(lines + [NewStroke(id, tool, p0)], pts);
      |r| == |lines| + 1 && r[..|lines|] == lines &&
      r[|lines|].id == id && r[|lines|].points == Flatten([p0] + pts)
  {
    var start := lines + [NewStroke(id, tool, p0)];
    DragFlattens(start, pts);
    FlattenCons(p0, pts);
    assert start[..|start| - 1] == lines;
  }

  lemma {:induction false} FlattenCons(p: Point, pts: seq<Point>)
    ensures Flatten([p] + pts) == [p.x, p.y] + Flatten(pts)
    decreases |pts|
  {
    if pts != [] {
      var ps := [p] + pts;
      assert ps[..|ps| - 1] == [p] + pts[..|pts| - 1];
      FlattenCons(p, pts[..|pts| - 1]);
    }
  }

  /** The stroke each mouse-move of a drag emits: the whole stroke so far, under the same id. */
  function DragFragments(s: Stroke, pts: seq<Point>): (fs: seq<Stroke>)
    ensures |fs| == |pts|
  {
    if pts == [] then []
    else DragFragments(s, pts[..|pts| - 1]) + [s.(points := s.points + Flatten(pts))]
  }

  /** The log after `canvas-data` events deliver `fragments`, one at a time. */
  function Arrivals(lines: seq<Stroke>, fragments: seq<Stroke>): (r: seq<Stroke>)
  {
    if fragments == [] then lines else Arrivals(lines, fragments[..|fragments| - 1]) + [fragments[|fragments| - 1]]
  }

  /** Every arrival is appended as its own entry; nothing is merged by stroke id. */
  lemma {:induction false} ArrivalsAppend(lines: seq<Stroke>, fragments: seq<Stroke>)
    ensures Arrivals(lines, fragments) == lines + fragments
    decreases |fragments|
  {
    if fragments != [] {
      var init := fragments[..|fragments| - 1];
      ArrivalsAppend(lines, init);
      assert fragments == init + [fragments[|fragments| - 1]];
    }
  }

  /**
   * A peer that receives every fragment of a drag of k >= 1 moves gains k
   * entries, all with the stroke's id, the i-th holding the first i + 1
   * moves' points; only the last equals the drawer's finished stroke.
   */
  lemma ReceiverGetsOneEntryPerMove(peerLog: seq<Stroke>, s: Stroke, pts: seq<Point>)
    requires pts != []
    ensures var r := Arrivals(peerLog, DragFragments(s, pts));
      |r| == |peerLog| + |pts| && r[..|peerLog|] == peerLog &&
      (forall i :: |peerLog| <= i < |r| ==> r[i].id == s.id) &&
      r[|r| - 1] == Drag([s], pts)[0]
  {
    ArrivalsAppend(peerLog, DragFragments(s, pts));
    forall i | |peerLog| <= i < |peerLog| + |pts|
      ensures Arrivals(peerLog, DragFragments(s, pts))[i].id == s.id
    {
      FragmentAt(s, pts, i - |peerLog|);
    }
    FragmentAt(s, pts, |pts| - 1);
    DragFlattens([s], pts);
  }

  lemma {:induction false} FragmentAt(s: Stroke, pts: seq<Point>, i: nat)
    requires i < |pts|
    ensures DragFragments(s, pts)[i] == s.(points := s.points + Flatten(pts[..i + 1]))
    decreases |pts|
  {
    var init := pts[..|pts| - 1];
    if i == |pts| - 1 {
      assert pts[..i + 1] == pts;
    } else {
      FragmentAt(s, init, i);
      assert init[..i + 1] == pts[..i + 1];
    }
  }

  /** `user?.displayName || "Guest"`-style defaulting: absent or empty text falls back. */
  function OrDefault(v: Option<string>, default: string): (r: string)
    ensures Truthy(v) ==> r == v.value
    ensures !Truthy(v) ==> r == default
  {
    if Truthy(v) then v.value else default
  }

  /** The message `sendChat` sends, or nothing when the input is only white space. */
  function ComposeMessage(input: string, user: Option<User>, time: string): (m: Option<ChatMessage>)
    ensures m.None? <==> IsBlank(input)
    ensures m.Some? ==> m.value.text == input && m.value.time == time
    ensures m.Some? && user.None? ==> m.value.sender == "Guest" && m.value.email == "No Email"
    ensures m.Some? && user.Some? ==>
      m.value.sender == OrDefault(user.value.displayName, "Guest") &&
      m.value.email == OrDefault(user.value.email, "No Email")
  {
    if IsBlank(input) then None
    else
      var name := if user.Some? then user.value.displayName else None;
      var email := if user.Some? then user.value.email else None;
      Some(ChatMessage(input, OrDefault(name, "Guest"), OrDefault(email, "No Email"), time))
  }

  /** The `d` data of a stroke's path: `line.points.join(',')`. */
  function PathData(s: Stroke): (d: string)
  {
    Join(IntStrings(s.points), ",")
  }

  /** One `<path>` element of the export: the stroke's data, then its colour, in one self-closing tag. */
  function PathElement(s: Stroke): (e: string)
    ensures |e| >= 15 && e[..11] == "<path d=\"M " && e[|e| - 4..] == "\" />"
    ensures e == "<path d=\"M " + PathData(s) + "\" stroke=\"" + s.color + "\" />"
  {
    "<path d=\"M " + PathData(s) + "\" stroke=\"" + s.color + "\" />"
  }

  /**
   * The path data holds every coordinate of the stroke, in order: cut at
   * its commas, it gives back one numeral per coordinate.
   */
  lemma PathDataSplits(s: Stroke)
    requires s.points != []
    ensures Split(PathData(s), ',') == IntStrings(s.points)
    ensures forall i :: 0 <= i < |s.points| ==> Split(PathData(s), ',')[i] == IntToString(s.points[i])
  {
    var parts := IntStrings(s.points);
    assert "," == [','];
    SplitJoin(parts, ',');
  }

  /** `String(x)` for each coordinate, as `join` converts the numbers. */
  function IntStrings(xs: seq<int>): (r: seq<string>)
    ensures |r| == |xs| && forall i :: 0 <= i < |xs| ==> r[i] == IntToString(xs[i])
  {
    seq(|xs|, i requires 0 <= i < |xs| => IntToString(xs[i]))
  }

  function PathElements(lines: seq<Stroke>): (r: seq<string>)
    ensures |r| == |lines| && forall i :: 0 <= i < |lines| ==> r[i] == PathElement(lines[i])
  {
    if lines == [] then [] else PathElements(lines[..|lines| - 1]) + [PathElement(lines[|lines| - 1])]
  }

  const SvgOpen := "<svg width=\"100%\" height=\"100%\">"
  const SvgClose := "</svg>"

  /** The comma-separated path elements, as `${lines.map(...)}` renders the array. */
  function SvgBody(lines: seq<Stroke>): (body: string)
  {
    Join(PathElements(lines), ",")
  }

  /** The SVG text of `generateCode`: the paths inside one full-size `<svg>` element. */
  function Svg(lines: seq<Stroke>): (text: string)
    ensures |text| == |SvgOpen| + |SvgBody(lines)| + |SvgClose|
    ensures text[..|SvgOpen|] == SvgOpen && text[|text| - |SvgClose|..] == SvgClose
    ensures text[|SvgOpen|..|text| - |SvgClose|] == SvgBody(lines)
  {
    SvgOpen + SvgBody(lines) + SvgClose
  }

  /** The export of an empty board is the bare svg element. */
  lemma SvgEmpty()
    ensures Svg([]) == "<svg width=\"100%\" height=\"100%\"></svg>"
  {
  }

  /** Drawing one more stroke adds "," and its path after the earlier paths. */
  lemma SvgAppend(lines: seq<Stroke>, s: Stroke)
    requires lines != []
    ensures SvgBody(lines + [s]) == SvgBody(lines) + "," + PathElement(s)
  {
    var ps := PathElements(lines);
    assert PathElements(lines + [s]) == ps + [PathElement(s)];
    JoinSnoc(ps, PathElement(s), ",");
  }

  /** The board component's state; each method is one event handler. */
  class BoardState {
    var lines: seq<Stroke>
    var messages: seq<ChatMessage>
    var chatInput: string
    var tool: Tool
    /** The `isDrawing` ref. */
    var isDrawing: bool
    var generatedCode: string
    var isModalOpen: bool

    constructor ()
      ensures lines == [] && messages == [] && chatInput == "" && tool == Pen && !isDrawing
      ensures generatedCode == "" && !isModalOpen
    {
      lines, messages, chatInput, tool, isDrawing := [], [], "", Pen, false;
      generatedCode, isModalOpen := "", false;
    }

    /** A toolbar button. */
    method SetTool(t: Tool)
      modifies this`tool
      ensures tool == t
    {
      tool := t;
    }

    /** The remote `canvas-data` handler: the payload becomes one more entry. */
    method OnCanvasData(data: Stroke)
      modifies this`lines
      ensures lines == old(lines) + [data]
    {
      lines := lines + [data];
    }

    /** The remote `clear` handler; a second clear changes nothing more. */
    method OnClear()
      modifies this`lines
      ensures lines == []
    {
      lines := [];
    }

    method OnReceiveMessage(m: ChatMessage)
      modifies this`messages
      ensures messages == old(messages) + [m]
    {
      messages := messages + [m];
    }

    /** Starts a stroke at `p`, except with the hand tool. */
    method MouseDown(id: string, p: Point)
      modifies this`lines, this`isDrawing
      ensures old(tool) == Hand ==> lines == old(lines) && isDrawing == old(isDrawing)
      ensures old(tool) != Hand ==> isDrawing && lines == old(lines) + [NewStroke(id, tool, p)]
    {
      if tool == Hand {
        return;
      }
      isDrawing := true;
      lines := lines + [NewStroke(id, tool, p)];
    }

    /** Extends the last stroke by `p` while drawing and emits that stroke as `canvas-data`. */
    method MouseMove(p: Point) returns (emitted: Option<Stroke>)
      modifies this`lines
      ensures !isDrawing || tool == Hand || old(lines) == [] ==> lines == old(lines) && emitted == None
      ensures isDrawing && tool != Hand && old(lines) != [] ==>
        lines == MoveLast(old(lines), p) && emitted == Some(lines[|lines| - 1])
    {
      if !isDrawing || tool == Hand {
        return None;
      }
      if lines == [] {
        return None;
      }
      lines := MoveLast(lines, p);
      emitted := Some(lines[|lines| - 1]);
    }

    method MouseUp()
      modifies this`isDrawing
      ensures !isDrawing
    {
      isDrawing := false;
    }

    method SetChatInput(text: string)
      modifies this`chatInput
      ensures chatInput == text
    {
      chatInput := text;
    }

    /** Sends and records the typed message, then empties the input; blank input is ignored. */
    method SendChat(user: Option<User>, time: string) returns (sent: Option<ChatMessage>)
      modifies this`messages, this`chatInput
      ensures sent == ComposeMessage(old(chatInput), user, time)
      ensures sent.None? ==> messages == old(messages) && chatInput == old(chatInput)
      ensures sent.Some? ==> messages == old(messages) + [sent.value] && chatInput == ""
    {
      sent := ComposeMessage(chatInput, user, time);
      if sent.Some? {
        messages := messages + [sent.value];
        chatInput := "";
      }
    }

    method GenerateCode()
      modifies this`generatedCode, this`isModalOpen
      ensures generatedCode == Svg(lines) && isModalOpen
    {
      generatedCode := Svg(lines);
      isModalOpen := true;
    }
  }

  /** One step of a drag, as seen by the drawer's log and by the fragment it emits. */
  lemma DragStep(start: seq<Stroke>, first: Stroke, pts: seq<Point>, i: nat, prev: seq<Stroke>)
    requires i < |pts| && start != [] && start[|start| - 1] == first
    requires prev == Drag(start, pts[..i])
    ensures prev != []
    ensures MoveLast(prev, pts[i]) == Drag(start, pts[..i + 1])
    ensures DragFragments(first, pts[..i + 1]) == DragFragments(first, pts[..i]) + [MoveLast(prev, pts[i])[|start| - 1]]
  {
    assert pts[..i + 1][..i] == pts[..i];
    DragFlattens(start, pts[..i + 1]);
  }

  /**
   * The mouse-moves of a drag already under way: each extends the last
   * stroke by its point and emits that stroke as it stands.
   */
  method DragMoves(b: BoardState, first: Stroke, pts: seq<Point>) returns (emitted: seq<Stroke>)
    requires b.isDrawing && b.tool != Hand && b.lines != [] && b.lines[|b.lines| - 1] == first
    modifies b`lines
    ensures b.lines == Drag(old(b.lines), pts)
    ensures emitted == DragFragments(first, pts)
  {
    ghost var start := b.lines;
    emitted := [];
    var i := 0;
    while i < |pts|
      invariant 0 <= i <= |pts|
      invariant b.lines == Drag(start, pts[..i])
      invariant emitted == DragFragments(first, pts[..i])
    {
      ghost var prev := b.lines;
      DragStep(start, first, pts, i, prev);
      var e := b.MouseMove(pts[i]);
      emitted := emitted + [e.value];
      i := i + 1;
    }
    assert pts[..|pts|] == pts;
  }

  /**
   * The local drawer's sequence: with pen or eraser, a mouse-down and k
   * mouse-moves leave one new stroke holding all k + 1 points in order, and
   * every move emits the stroke as it stands.
   */
  method DrawStroke(b: BoardState, id: string, p0: Point, pts: seq<Point>) returns (emitted: seq<Stroke>)
    requires b.tool != Hand
    modifies b`lines, b`isDrawing
    ensures |b.lines| == |old(b.lines)| + 1 && b.lines[..|old(b.lines)|] == old(b.lines)
    ensures b.lines[|b.lines| - 1].id == id && b.lines[|b.lines| - 1].points == Flatten([p0] + pts)
    ensures b.messages == old(b.messages) && b.tool == old(b.tool)
    ensures emitted == DragFragments(NewStroke(id, b.tool, p0), pts)
  {
    ghost var before := b.lines;
    var first := NewStroke(id, b.tool, p0);
    b.MouseDown(id, p0);
    assert b.lines == before + [first];
    emitted := DragMoves(b, first, pts);
    StrokePointsInOrder(before, id, b.tool, p0, pts);
  }
}
