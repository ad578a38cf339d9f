/** The chain of responsibility: an event sent to a widget is handled by the
    nearest widget on its parent chain that has a handler named after the
    event; only the root of the chain falls back to its `default` handler,
    and an event nobody takes is dropped. A widget is a value whose parent is
    another widget, so every chain is finite and acyclic. */
module Chain {
  import opened Wrappers

  /** A widget: its class name, the events it has a `handle_<event>`
      method for, and its parent. */
  datatype Widget = Widget(kind: string, handles: set<string>, parent: Option<Widget>)

  /** Who took an event: the class of the widget whose `handle_<handler>`
      method ran, that handler's event name, and how many parent links up
      the chain that widget is. */
  datatype Dispatch = Handled(kind: string, handler: string, depth: nat) | Dropped

  /** The event whose handler is the fallback: `handle_default`. */
  const Default: string := "default"

  /** `widget.handle(event)`. The event is taken either by its own handler
      or by a default handler; the widget itself takes it (depth 0) only
      with a handler it has, and it passes the event up only when it has no
      handler for it and does have a parent. */
  function Handle(w: Widget, event: string): (r: Dispatch)
    ensures r.Handled? ==> r.handler == event || r.handler == Default
    ensures r.Handled? && r.depth == 0 ==> r.kind == w.kind && r.handler in w.handles
    ensures r.Handled? && r.depth > 0 ==> w.parent.Some? && event !in w.handles
    ensures r.Dropped? ==> event !in w.handles
    decreases w
  {
    if event in w.handles then Handled(w.kind, event, 0)
    else match w.parent
      case Some(p) => Up(Handle(p, event))
      case None => if Default in w.handles then Handled(w.kind, Default, 0) else Dropped
  }

  /** The same outcome as seen from one widget further down. */
  function Up(d: Dispatch): Dispatch
  {
    match d
    case Handled(k, h, n) => Handled(k, h, n + 1)
    case Dropped => Dropped
  }

  /** The widget followed by its ancestors, ending at the root. */
  function Ancestry(w: Widget): (r: seq<Widget>)
    ensures |r| > 0 && r[0] == w && r[|r| - 1].parent == None
    ensures forall i :: 1 <= i < |r| ==> r[i - 1].parent == Some(r[i])
    decreases w
  {
    match w.parent
    case None => [w]
    case Some(p) => [w] + Ancestry(p)
  }

  /** The position of the first widget of `chain` that handles `event`. */
  function FirstTaker(chain: seq<Widget>, event: string): (r: Option<nat>)
    ensures r.Some? ==> r.value < |chain| && event in chain[r.value].handles
    ensures r.Some? ==> forall j :: 0 <= j < r.value ==> event !in chain[j].handles
    ensures r.None? <==> forall i :: 0 <= i < |chain| ==> event !in chain[i].handles
  {
    if chain == [] then None
    else if event in chain[0].handles then Some(0)
    else match FirstTaker(chain[1..], event)
      case Some(i) => Some(i + 1)
      case None => None
  }

  /** The resolution rule stated over a whole chain: the nearest widget with
      a matching handler takes the event; failing that, the root's default
      handler does if the root has one; otherwise the event is dropped. */
  function Resolve(chain: seq<Widget>, event: string): Dispatch
    requires |chain| > 0
  {
    match FirstTaker(chain, event)
    case Some(i) => Handled(chain[i].kind, event, i)
    case None =>
      var root := chain[|chain| - 1];
      if Default in root.handles then Handled(root.kind, Default, |chain| - 1) else Dropped
  }

  /** Delegating to the parent is resolving over the ancestry. */
  lemma {:induction false} HandleResolves(w: Widget, event: string)
    ensures Handle(w, event) == Resolve(Ancestry(w), event)
    decreases w
  {
    if event !in w.handles {
      match w.parent
      case None =>
      case Some(p) =>
        HandleResolves(p, event);
        var rest := Ancestry(p);
        assert Ancestry(w)[1..] == rest;
    }
  }

  /** What `Resolve` promises: a handled event was taken by a widget of the
      chain that has the handler; a handler of the event itself is the
      nearest one; the default handler runs only at the root and only when
      no widget has a handler of the event; and an event is dropped exactly
      when no widget handles it and the root has no default handler. */
  lemma ResolveMeans(chain: seq<Widget>, event: string)
    requires |chain| > 0
    ensures var d := Resolve(chain, event);
      (d.Handled? ==> d.depth < |chain| && d.kind == chain[d.depth].kind && d.handler in chain[d.depth].handles)
      && (d.Handled? && d.handler == event ==>
            forall j :: 0 <= j < d.depth ==> event !in chain[j].handles)
      && (d.Handled? && d.handler != event ==>
            d.handler == Default && d.depth == |chain| - 1
            && forall i :: 0 <= i < |chain| ==> event !in chain[i].handles)
      && (d == Dropped <==>
            (forall i :: 0 <= i < |chain| ==> event !in chain[i].handles)
            && Default !in chain[|chain| - 1].handles)
  {
  }

  /** A widget that has a handler for the event handles it itself. */
  lemma OwnHandlerWins(w: Widget, event: string)
    requires event in w.handles
    ensures Handle(w, event) == Handled(w.kind, event, 0)
  {
  }

  /** A widget with a parent never runs its own default handler on another
      event; the event goes up the chain instead. */
  lemma DefaultOnlyAtRoot(w: Widget, event: string)
    requires w.parent.Some? && event != Default
    ensures Handle(w, event) != Handled(w.kind, Default, 0)
  {
  }

  // ------------------------------------------------------------- the demo

  /** `MainWindow()`: handles `close` and has a default handler. */
  const MainWindow: Widget := Widget("MainWindow", {"close", "default"}, None)

  /** `SendDialog(mw)`: handles `paint`. */
  const SendDialog: Widget := Widget("SendDialog", {"paint"}, Some(MainWindow))

  /** `MsgText(sd)`: handles `down`. */
  const MsgText: Widget := Widget("MsgText", {"down"}, Some(SendDialog))

  /** The events of the demonstration sent to the main window: only `close`
      has a handler; the rest go to its default handler. */
  lemma DemoMainWindow()
    ensures Handle(MainWindow, "down") == Handled("MainWindow", Default, 0)
    ensures Handle(MainWindow, "paint") == Handled("MainWindow", Default, 0)
    ensures Handle(MainWindow, "unhandled") == Handled("MainWindow", Default, 0)
    ensures Handle(MainWindow, "close") == Handled("MainWindow", "close", 0)
  {
  }

  /** The events sent to the dialog: `paint` stays there, the others reach
      the main window. */
  lemma DemoSendDialog()
    ensures Handle(SendDialog, "down") == Handled("MainWindow", Default, 1)
    ensures Handle(SendDialog, "paint") == Handled("SendDialog", "paint", 0)
    ensures Handle(SendDialog, "unhandled") == Handled("MainWindow", Default, 1)
    ensures Handle(SendDialog, "close") == Handled("MainWindow", "close", 1)
  {
    DemoMainWindow();
  }

  /** The events sent to the message text: `down` stays there, `paint` is
      taken by the dialog, and `unhandled` and `close` reach the main
      window two links up. */
  lemma DemoMsgText()
    ensures Handle(MsgText, "down") == Handled("MsgText", "down", 0)
    ensures Handle(MsgText, "paint") == Handled("SendDialog", "paint", 1)
    ensures Handle(MsgText, "unhandled") == Handled("MainWindow", Default, 2)
    ensures Handle(MsgText, "close") == Handled("MainWindow", "close", 2)
  {
    DemoSendDialog();
  }
}
