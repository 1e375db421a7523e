/** The monitoring-box (MB) editor of the configuration page
    (src/MBConfigTab.js): boards are dragged onto monitoring points, the
    selected point's settings are edited, and new boards are added to the
    inventory. */
module MbConfig {
  import opened Common
  import opened Text

  /** A monitoring box of the inventory. */
  datatype Board = Board(id: string, status: string, assignment: Option<string>, signal: int)

  datatype Range = Range(min: Reading, max: Reading)

  datatype Alarms = Alarms(criticalHigh: Reading, warningHigh: Reading, warningLow: Reading, criticalLow: Reading)

  /** A monitoring point; number settings hold the text of the input that
      last edited them. */
  datatype Point = Point(
    id: string,
    name: string,
    mbId: Option<string>,
    kind: string,
    location: string,
    expectedRange: Range,
    units: string,
    decimals: Reading,
    alarms: Alarms,
    samplingRate: Reading)

  /** The edits the point editor makes, one per input of the form. */
  datatype PointUpdate =
    | SetName(name: string)
    | SetMbId(mbId: string)
    | SetKind(kind: string)
    | SetLocation(location: string)
    | SetExpectedRange(range: Range)
    | SetUnits(units: string)
    | SetDecimals(decimals: Reading)
    | SetAlarms(alarms: Alarms)
    | SetSamplingRate(rate: Reading)

  /** `{ ...p, [field]: value }`. */
  function Updated(p: Point, u: PointUpdate): (r: Point)
    ensures r.id == p.id
  {
    match u
    case SetName(v) => p.(name := v)
    case SetMbId(v) => p.(mbId := Some(v))
    case SetKind(v) => p.(kind := v)
    case SetLocation(v) => p.(location := v)
    case SetExpectedRange(v) => p.(expectedRange := v)
    case SetUnits(v) => p.(units := v)
    case SetDecimals(v) => p.(decimals := v)
    case SetAlarms(v) => p.(alarms := v)
    case SetSamplingRate(v) => p.(samplingRate := v)
  }

  function Ids(points: seq<Point>): seq<string>
  {
    if |points| == 0 then [] else Ids(points[..|points| - 1]) + [points[|points| - 1].id]
  }

  function BoardIds(boards: seq<Board>): (ids: seq<string>)
    ensures |ids| == |boards|
  {
    if |boards| == 0 then [] else BoardIds(boards[..|boards| - 1]) + [boards[|boards| - 1].id]
  }

  // ---------------------------------------------------------------------------
  // handleDrop and handlePointUpdate, on the lists
  // ---------------------------------------------------------------------------

  /** The points after a board is dropped on the point with id `pointId`. */
  function DropOnPoints(points: seq<Point>, pointId: string, mbId: string): (r: seq<Point>)
    ensures |r| == |points|
  {
    if |points| == 0 then []
    else
      var p := points[|points| - 1];
      DropOnPoints(points[..|points| - 1], pointId, mbId) + [if p.id == pointId then p.(mbId := Some(mbId)) else p]
  }

  /** The boards after board `mbId` is assigned to the point named `pointName`. */
  function AssignBoard(boards: seq<Board>, mbId: string, pointName: string): (r: seq<Board>)
    ensures |r| == |boards|
  {
    if |boards| == 0 then []
    else
      var b := boards[|boards| - 1];
      AssignBoard(boards[..|boards| - 1], mbId, pointName) + [if b.id == mbId then b.(assignment := Some(pointName)) else b]
  }

  /** The points after the point with id `pointId` is edited. */
  function UpdatePoints(points: seq<Point>, pointId: string, u: PointUpdate): (r: seq<Point>)
    ensures |r| == |points|
  {
    if |points| == 0 then []
    else
      var p := points[|points| - 1];
      UpdatePoints(points[..|points| - 1], pointId, u) + [if p.id == pointId then Updated(p, u) else p]
  }

  lemma {:induction false} DropOnPointsSpec(points: seq<Point>, pointId: string, mbId: string)
    ensures forall i :: 0 <= i < |points| ==>
      DropOnPoints(points, pointId, mbId)[i] == if points[i].id == pointId then points[i].(mbId := Some(mbId)) else points[i]
  {
    if |points| > 0 {
      DropOnPointsSpec(points[..|points| - 1], pointId, mbId);
    }
  }

  lemma {:induction false} AssignBoardSpec(boards: seq<Board>, mbId: string, pointName: string)
    ensures forall i :: 0 <= i < |boards| ==>
      AssignBoard(boards, mbId, pointName)[i] == if boards[i].id == mbId then boards[i].(assignment := Some(pointName)) else boards[i]
  {
    if |boards| > 0 {
      AssignBoardSpec(boards[..|boards| - 1], mbId, pointName);
    }
  }

  lemma {:induction false} UpdatePointsSpec(points: seq<Point>, pointId: string, u: PointUpdate)
    ensures forall i :: 0 <= i < |points| ==>
      UpdatePoints(points, pointId, u)[i] == if points[i].id == pointId then Updated(points[i], u) else points[i]
  {
    if |points| > 0 {
      UpdatePointsSpec(points[..|points| - 1], pointId, u);
    }
  }

  /** A drop links the two sides: every point with the target's id now
      names the board, every board with the dragged id now names the point,
      and nothing else changes. */
  lemma DropLinksBoardAndPoint(points: seq<Point>, boards: seq<Board>, point: Point, mb: Board)
    ensures var ps := DropOnPoints(points, point.id, mb.id);
      var bs := AssignBoard(boards, mb.id, point.name);
      (forall i :: 0 <= i < |ps| && ps[i].id == point.id ==> ps[i].mbId == Some(mb.id))
      && (forall i :: 0 <= i < |bs| && bs[i].id == mb.id ==> bs[i].assignment == Some(point.name))
      && (forall i :: 0 <= i < |ps| && ps[i].id != point.id ==> ps[i] == points[i])
      && (forall i :: 0 <= i < |bs| && bs[i].id != mb.id ==> bs[i] == boards[i])
  {
    DropOnPointsSpec(points, point.id, mb.id);
    AssignBoardSpec(boards, mb.id, point.name);
  }

  /** Editing the selected point keeps its copy in the list and the
      selection equal: the selection's new value is the list entry's. */
  lemma SelectionStaysInSync(points: seq<Point>, selected: Point, u: PointUpdate, i: nat)
    requires i < |points| && points[i] == selected
    ensures UpdatePoints(points, selected.id, u)[i] == Updated(selected, u)
    ensures Ids(UpdatePoints(points, selected.id, u)) == Ids(points)
  {
    UpdatePointsSpec(points, selected.id, u);
    UpdateKeepsIds(points, selected.id, u);
  }

  lemma {:induction false} UpdateKeepsIds(points: seq<Point>, pointId: string, u: PointUpdate)
    ensures Ids(UpdatePoints(points, pointId, u)) == Ids(points)
  {
    if |points| > 0 {
      var init := points[..|points| - 1];
      UpdateKeepsIds(init, pointId, u);
      assert UpdatePoints(points, pointId, u)[..|points| - 1] == UpdatePoints(init, pointId, u);
    }
  }

  lemma {:induction false} DropKeepsIds(points: seq<Point>, pointId: string, mbId: string)
    ensures Ids(DropOnPoints(points, pointId, mbId)) == Ids(points)
  {
    if |points| > 0 {
      var init := points[..|points| - 1];
      DropKeepsIds(init, pointId, mbId);
      assert DropOnPoints(points, pointId, mbId)[..|points| - 1] == DropOnPoints(init, pointId, mbId);
    }
  }

  lemma {:induction false} AssignKeepsBoardIds(boards: seq<Board>, mbId: string, pointName: string)
    ensures BoardIds(AssignBoard(boards, mbId, pointName)) == BoardIds(boards)
  {
    if |boards| > 0 {
      var init := boards[..|boards| - 1];
      AssignKeepsBoardIds(init, mbId, pointName);
      assert AssignBoard(boards, mbId, pointName)[..|boards| - 1] == AssignBoard(init, mbId, pointName);
    }
  }

  // ---------------------------------------------------------------------------
  // addNewMB
  // ---------------------------------------------------------------------------

  /** The id of the n-th board: "MB-" and n padded to two digits. */
  function BoardId(n: nat): (id: string)
    ensures |id| >= 5 && id[..3] == "MB-"
  {
    "MB-" + PadStart(NatToString(n), 2, '0')
  }

  /** Different positions give different ids. */
  lemma BoardIdInjective(a: nat, b: nat)
    requires BoardId(a) == BoardId(b)
    ensures a == b
  {
    var sa, sb := NatToString(a), NatToString(b);
    var pa, pb := PadStart(sa, 2, '0'), PadStart(sb, 2, '0');
    assert pa == BoardId(a)[3..] && pb == BoardId(b)[3..];
    if |sa| == 1 && |sb| == 1 {
      assert sa == pa[1..] && sb == pb[1..];
      NatToStringInjective(a, b);
    } else if |sa| != 1 && |sb| != 1 {
      assert pa == sa && pb == sb;
      NatToStringInjective(a, b);
    } else {
      assert false;
    }
  }

  /** The ids `id(1)` to `id(n)`, in order. */
  function Numbered(n: nat, id: nat -> string): (ids: seq<string>)
    ensures |ids| == n
  {
    if n == 0 then [] else Numbered(n - 1, id) + [id(n)]
  }

  /** The inventory's boards are MB-01, MB-02, ... in order. */
  predicate NumberedInOrder(boards: seq<Board>)
  {
    BoardIds(boards) == Numbered(|boards|, BoardId)
  }

  lemma {:induction false} BoardIdsSpec(boards: seq<Board>)
    ensures forall i :: 0 <= i < |boards| ==> BoardIds(boards)[i] == boards[i].id
  {
    if |boards| > 0 {
      BoardIdsSpec(boards[..|boards| - 1]);
    }
  }

  lemma {:induction false} NumberedSpec(n: nat, id: nat -> string)
    ensures forall i :: 0 <= i < n ==> Numbered(n, id)[i] == id(i + 1)
  {
    if n > 0 {
      NumberedSpec(n - 1, id);
    }
  }

  /** An inventory is numbered in order exactly when its i-th board has the
      id of position i + 1. */
  lemma NumberedInOrderMeans(boards: seq<Board>)
    ensures NumberedInOrder(boards) <==> forall i :: 0 <= i < |boards| ==> boards[i].id == BoardId(i + 1)
  {
    var ids, numbered := BoardIds(boards), Numbered(|boards|, BoardId);
    BoardIdsSpec(boards);
    NumberedSpec(|boards|, BoardId);
    if forall i :: 0 <= i < |boards| ==> boards[i].id == BoardId(i + 1) {
      assert forall i :: 0 <= i < |boards| ==> ids[i] == numbered[i];
    }
  }

  /** A numbered inventory never holds two boards with one id, and the id
      `addNewMB` picks is not yet taken. */
  lemma NumberedIdsUnique(boards: seq<Board>)
    requires NumberedInOrder(boards)
    ensures forall i, j :: 0 <= i < j < |boards| ==> boards[i].id != boards[j].id
    ensures forall i :: 0 <= i < |boards| ==> boards[i].id != BoardId(|boards| + 1)
  {
    NumberedInOrderMeans(boards);
    forall i, j | 0 <= i < j < |boards| ensures boards[i].id != boards[j].id {
      if boards[i].id == boards[j].id {
        BoardIdInjective(i + 1, j + 1);
      }
    }
    forall i | 0 <= i < |boards| ensures boards[i].id != BoardId(|boards| + 1) {
      if boards[i].id == BoardId(|boards| + 1) {
        BoardIdInjective(i + 1, |boards| + 1);
      }
    }
  }

  /** The board `addNewMB` appends. */
  function NewBoard(count: nat): Board
  {
    Board(BoardId(count + 1), "online", None, 100)
  }

  /** Adding a board keeps the inventory numbered in order. */
  lemma NewBoardKeepsNumbering(boards: seq<Board>)
    requires NumberedInOrder(boards)
    ensures NumberedInOrder(boards + [NewBoard(|boards|)])
  {
    var r := boards + [NewBoard(|boards|)];
    assert r[..|boards|] == boards;
  }

  /** Assigning a board to a point keeps the inventory numbered in order. */
  lemma AssignKeepsNumbering(boards: seq<Board>, mbId: string, pointName: string)
    requires NumberedInOrder(boards)
    ensures NumberedInOrder(AssignBoard(boards, mbId, pointName))
  {
    AssignKeepsBoardIds(boards, mbId, pointName);
  }

  /** The id of a board numbered below ten. */
  lemma SmallBoardId(n: nat)
    requires 1 <= n <= 9
    ensures BoardId(n) == "MB-0" + [DigitChar(n)]
  {
    var s := NatToString(n);
    assert s == [DigitChar(n)];
    var p := PadStart(s, 2, '0');
    assert p == "0" + s;
  }

  /** The starting inventory is MB-01 to MB-05. */
  lemma InitialBoardsNumbered()
    ensures NumberedInOrder(InitialBoards)
  {
    NumberedInOrderMeans(InitialBoards);
    SmallBoardId(1);
    SmallBoardId(2);
    SmallBoardId(3);
    SmallBoardId(4);
    SmallBoardId(5);
  }

  // ---------------------------------------------------------------------------
  // StatusIcon
  // ---------------------------------------------------------------------------

  /** The icon of a board status; an unknown status has none. */
  function StatusIcon(status: string): (icon: Option<string>)
    ensures icon.Some? <==> status in {"online", "weak", "offline"}
  {
    if status == "online" then Some("\U{2713}")
    else if status == "weak" then Some("\U{26A0}")
    else if status == "offline" then Some("\U{2716}")
    else None
  }

  /** Each known status has its own icon. */
  lemma StatusIconsDistinct(s: string, t: string)
    requires StatusIcon(s).Some? && StatusIcon(t).Some? && s != t
    ensures StatusIcon(s) != StatusIcon(t)
  {
  }

  // ---------------------------------------------------------------------------
  // The component's state
  // ---------------------------------------------------------------------------

  const InitialBoards: seq<Board> := [
    Board("MB-01", "online", None, 100),
    Board("MB-02", "online", Some("String 1 Current"), 95),
    Board("MB-03", "weak", Some("Irradiance"), 45),
    Board("MB-04", "offline", Some("Temperature"), 0),
    Board("MB-05", "online", None, 88)]

  function StringCurrentAlarms(): Alarms
  {
    Alarms(Num(12.0), Num(10.0), Num(0.5), Num(0.0))
  }

  const InitialPoints: seq<Point> := [
    Point("point-1", "String 1 Current", Some("MB-02"), "DC Current", "Array 1 - String 1",
          Range(Num(0.0), Num(10.0)), "A", Num(2.0), StringCurrentAlarms(), Num(1000.0)),
    Point("point-2", "String 2 Current", None, "DC Current", "Array 1 - String 2",
          Range(Num(0.0), Num(10.0)), "A", Num(2.0), StringCurrentAlarms(), Num(1000.0)),
    Point("point-3", "Irradiance Sensor", Some("MB-03"), "Irradiance", "Array 1 Center",
          Range(Num(0.0), Num(1200.0)), "W/m\U{00B2}", Num(1.0),
          Alarms(Num(1500.0), Num(1200.0), Num(50.0), Num(0.0)), Num(5000.0))]

  /** The editor's state: the inventory, the monitoring points, the point
      being edited and the board being dragged. */
  class MbConfigTab {
    var mbList: seq<Board>
    var monitoringPoints: seq<Point>
    var selectedPoint: Option<Point>
    var draggedMB: Option<Board>

    ghost predicate Valid()
      reads this`mbList
    {
      NumberedInOrder(mbList)
    }

    constructor()
      ensures Valid()
      ensures mbList == InitialBoards && monitoringPoints == InitialPoints
      ensures selectedPoint == None && draggedMB == None
    {
      InitialBoardsNumbered();
      mbList := InitialBoards;
      monitoringPoints := InitialPoints;
      selectedPoint := None;
      draggedMB := None;
    }

    /** `handleDragStart`. */
    method HandleDragStart(mb: Board)
      modifies this
      ensures draggedMB == Some(mb)
      ensures mbList == old(mbList) && monitoringPoints == old(monitoringPoints) && selectedPoint == old(selectedPoint)
    {
      draggedMB := Some(mb);
    }

    /** A click on a point selects it for editing. */
    method SelectPoint(point: Point)
      modifies this
      ensures selectedPoint == Some(point)
      ensures mbList == old(mbList) && monitoringPoints == old(monitoringPoints) && draggedMB == old(draggedMB)
    {
      selectedPoint := Some(point);
    }

    /** `handleDrop`: without a dragged board nothing happens; otherwise the
        point takes the board, the board takes the point's name, and the
        drag ends. */
    method HandleDrop(point: Point)
      requires Valid()
      modifies this
      ensures Valid()
      ensures old(draggedMB).None? ==>
        mbList == old(mbList) && monitoringPoints == old(monitoringPoints) && draggedMB == None
      ensures old(draggedMB).Some? ==>
        monitoringPoints == DropOnPoints(old(monitoringPoints), point.id, old(draggedMB).value.id)
        && mbList == AssignBoard(old(mbList), old(draggedMB).value.id, point.name)
        && draggedMB == None
      ensures selectedPoint == old(selectedPoint)
    {
      if draggedMB.None? {
        return;
      }
      var mb := draggedMB.value;
      AssignKeepsNumbering(mbList, mb.id, point.name);
      monitoringPoints := DropOnPoints(monitoringPoints, point.id, mb.id);
      mbList := AssignBoard(mbList, mb.id, point.name);
      draggedMB := None;
    }

    /** `handlePointUpdate`: without a selection nothing happens; otherwise
        the selected point is edited in the list and in the selection. */
    method HandlePointUpdate(u: PointUpdate)
      requires Valid()
      modifies this
      ensures Valid()
      ensures old(selectedPoint).None? ==>
        monitoringPoints == old(monitoringPoints) && selectedPoint == None
      ensures old(selectedPoint).Some? ==>
        monitoringPoints == UpdatePoints(old(monitoringPoints), old(selectedPoint).value.id, u)
        && selectedPoint == Some(Updated(old(selectedPoint).value, u))
      ensures mbList == old(mbList) && draggedMB == old(draggedMB)
    {
      if selectedPoint.None? {
        return;
      }
      var sel := selectedPoint.value;
      var points := UpdatePoints(monitoringPoints, sel.id, u);
      var edited := Updated(sel, u);
      monitoringPoints := points;
      selectedPoint := Some(edited);
    }

    /** `addNewMB`: one new online board, numbered after the others. */
    method AddNewMB()
      requires Valid()
      modifies this
      ensures Valid()
      ensures mbList == old(mbList) + [NewBoard(|old(mbList)|)]
      ensures monitoringPoints == old(monitoringPoints)
      ensures selectedPoint == old(selectedPoint) && draggedMB == old(draggedMB)
    {
      NewBoardKeepsNumbering(mbList);
      mbList := mbList + [NewBoard(|mbList|)];
    }
  }
}
