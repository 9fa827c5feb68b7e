/**
 * The per-frame overlay compositor of src/ui/ui.rs.
 *
 * The GPU and the text engine are not modelled; each call the compositor
 * makes into them is recorded as an `Event` in the ghost `trace` of `Ui`.
 * The main and the transition rectangle pipeline are represented by the
 * contents of their instance buffers, the glyph brush by its pending batch.
 */
module Ui {
  import opened Primitives
  import opened Decimal

  /** A call into a collaborator, with what it uploads or draws. */
  datatype Event =
    | UpdateMain(instances: seq<RectangleInstance>)          // main pipeline buffer replaced
    | MainPass(drawn: seq<RectangleInstance>)                // main pipeline's "load" pass
    | TextDraw(sections: seq<Section>, width: nat, height: nat) // glyph brush draws its batch
    | SetTransitionBuffer(instances: seq<RectangleInstance>) // transition pipeline buffer replaced
    | TransitionPass(drawn: seq<RectangleInstance>)          // transition pipeline's "load" pass

  /**
   * The place of an event in the compositing order of one frame.
   * `SetTransitionBuffer` is issued between frames, never by a render.
   */
  function Stage(e: Event): nat {
    match e
    case SetTransitionBuffer(_) => 0
    case UpdateMain(_) => 1
    case MainPass(_) => 2
    case TextDraw(_, _, _) => 3
    case TransitionPass(_) => 4
  }

  /**
   * The events of one `render`, given the queued rectangles, the pending text
   * batch, the stored transition alpha and the transition buffer at that time.
   */
  function Frame(queued: seq<RectangleInstance>, pending: seq<Section>, alpha: real,
                 overlay: seq<RectangleInstance>, width: nat, height: nat): (events: seq<Event>)
    // each step at most once, strictly in compositing order
    ensures forall i, j :: 0 <= i < j < |events| ==> Stage(events[i]) < Stage(events[j])
    // the main buffer receives the queued rectangles, and the main pass draws exactly them
    ensures UpdateMain(queued) in events && MainPass(queued) in events
    // the text pass always happens and draws the whole pending batch
    ensures TextDraw(pending, width, height) in events
    // the transition pass happens exactly when the stored alpha is nonzero
    ensures (exists e :: e in events && e.TransitionPass?) <==> alpha != 0.0
    ensures forall e :: e in events && e.TransitionPass? ==> e.drawn == overlay
    // a render never touches the transition buffer
    ensures forall e :: e in events ==> !e.SetTransitionBuffer?
  {
    var base := [UpdateMain(queued), MainPass(queued), TextDraw(pending, width, height)];
    if alpha != 0.0 then
      var events := base + [TransitionPass(overlay)];
      assert events[3] in events;
      events
    else
      base
  }

  /**
   * The coupling `set_transition_alpha` keeps: a nonzero stored alpha comes
   * from the transition buffer's sole rectangle.
   */
  predicate TransitionCoupled(alpha: real, overlay: seq<RectangleInstance>) {
    alpha != 0.0 ==> |overlay| == 1 && overlay[0].color.a == alpha
  }

  /** Under the coupling, a frame's transition pass draws one visible rectangle. */
  lemma TransitionPassDrawsVisibleOverlay(queued: seq<RectangleInstance>, pending: seq<Section>,
                                          alpha: real, overlay: seq<RectangleInstance>,
                                          width: nat, height: nat)
    requires TransitionCoupled(alpha, overlay)
    ensures forall e :: e in Frame(queued, pending, alpha, overlay, width, height) && e.TransitionPass? ==>
              |e.drawn| == 1 && e.drawn[0].color.a != 0.0
  {
  }

  const FPS_PREFIX := "FPS: "

  /** The section `queue_fps` builds for the reading `fps`. */
  function FpsSection(fps: i32): (s: Section)
    ensures |s.text| == 1
    ensures |s.text[0].content| > |FPS_PREFIX| && s.text[0].content[..|FPS_PREFIX|] == FPS_PREFIX
    // what follows the prefix is the decimal rendering of fps, and nothing else
    ensures ParseInt(s.text[0].content[|FPS_PREFIX|..]) == Some(fps as int)
    ensures s.text[0].color == WHITE && s.text[0].scale == 20.0
    ensures s.screenPosition == (0.0, 5.0)
    ensures s.layout == Wrap(Left, Top)
  {
    var content := FPS_PREFIX + IntToDecimal(fps as int);
    assert content[|FPS_PREFIX|..] == IntToDecimal(fps as int);
    IntRoundTrip(fps as int);
    Section([Text(content, WHITE, 20.0)], (0.0, 5.0), Wrap(Left, Top))
  }

  lemma FpsSectionOf42()
    ensures FpsSection(42).text == [Text("FPS: 42", Rgba(1.0, 1.0, 1.0, 1.0), 20.0)]
  {
    assert DigitChar(4) == '4' && DigitChar(2) == '2';
    assert NatToDecimal(4) == "4";
    assert NatToDecimal(42) == NatToDecimal(4) + "2" == "42";
    assert IntToDecimal(42) == "42";
    assert FpsSection(42).text[0].content == FPS_PREFIX + IntToDecimal(42);
    assert FPS_PREFIX + "42" == "FPS: 42";
  }

  /** The per-frame rectangle queue. */
  class UiQueue {
    var rectangles: seq<RectangleInstance>

    constructor ()
      ensures rectangles == []
    {
      rectangles := [];
    }

    method AddRectangle(rectangle: RectangleInstance)
      modifies this
      ensures rectangles == old(rectangles) + [rectangle]
    {
      rectangles := rectangles + [rectangle];
    }

    /** Reads and resets in one step. */
    method ClearRectangles() returns (taken: seq<RectangleInstance>)
      modifies this
      ensures taken == old(rectangles)
      ensures rectangles == []
    {
      taken := rectangles;
      rectangles := [];
    }
  }

  class Ui {
    const queue: UiQueue
    var mainInstances: seq<RectangleInstance>        // the main pipeline's instance buffer
    var pendingText: seq<Section>                    // the glyph brush's pending batch
    var transitionInstances: seq<RectangleInstance>  // the transition pipeline's instance buffer
    var transitionAlpha: real
    ghost var trace: seq<Event>

    ghost predicate Valid()
      reads this
    {
      TransitionCoupled(transitionAlpha, transitionInstances)
    }

    constructor ()
      ensures Valid() && fresh(queue)
      ensures queue.rectangles == [] && pendingText == [] && transitionAlpha == 0.0
      ensures mainInstances == [] && transitionInstances == []
      ensures trace == []
    {
      queue := new UiQueue();
      mainInstances := [];
      pendingText := [];
      transitionInstances := [];
      transitionAlpha := 0.0;
      trace := [];
    }

    method SetTransitionAlpha(rectangle: RectangleInstance)
      requires Valid()
      modifies this
      ensures Valid()
      ensures transitionAlpha == rectangle.color.a
      ensures transitionInstances == [rectangle]
      ensures trace == old(trace) + [SetTransitionBuffer([rectangle])]
      ensures mainInstances == old(mainInstances) && pendingText == old(pendingText)
      ensures queue.rectangles == old(queue.rectangles)
    {
      transitionAlpha := rectangle.color.a;
      transitionInstances := [rectangle];
      trace := trace + [SetTransitionBuffer([rectangle])];
    }

    method QueueRectangle(rectangle: RectangleInstance)
      requires Valid()
      modifies queue
      ensures Valid()
      ensures queue.rectangles == old(queue.rectangles) + [rectangle]
      ensures unchanged(this)
    {
      queue.AddRectangle(rectangle);
    }

    method QueueText(section: Section)
      requires Valid()
      modifies this
      ensures Valid()
      ensures pendingText == old(pendingText) + [section]
      ensures mainInstances == old(mainInstances) && trace == old(trace)
      ensures transitionAlpha == old(transitionAlpha) && transitionInstances == old(transitionInstances)
      ensures queue.rectangles == old(queue.rectangles)
    {
      pendingText := pendingText + [section];
    }

    method QueueFps(fps: i32)
      requires Valid()
      modifies this
      ensures Valid()
      ensures pendingText == old(pendingText) + [FpsSection(fps)]
      ensures mainInstances == old(mainInstances) && trace == old(trace)
      ensures transitionAlpha == old(transitionAlpha) && transitionInstances == old(transitionInstances)
      ensures queue.rectangles == old(queue.rectangles)
    {
      QueueText(FpsSection(fps));
    }

    /** Drains the queue into the main pipeline's instance buffer. */
    method Update()
      requires Valid()
      modifies this, queue
      ensures Valid()
      ensures mainInstances == old(queue.rectangles) && queue.rectangles == []
      ensures trace == old(trace) + [UpdateMain(old(queue.rectangles))]
      ensures pendingText == old(pendingText)
      ensures transitionAlpha == old(transitionAlpha) && transitionInstances == old(transitionInstances)
    {
      var rectangles := queue.ClearRectangles();
      mainInstances := rectangles;
      trace := trace + [UpdateMain(rectangles)];
    }

    /** Composites one frame of `width` by `height` logical pixels. */
    method Render(width: nat, height: nat)
      requires Valid()
      modifies this, queue
      ensures Valid()
      ensures trace == old(trace) + Frame(old(queue.rectangles), old(pendingText),
                                          old(transitionAlpha), old(transitionInstances), width, height)
      ensures queue.rectangles == [] && pendingText == []
      ensures mainInstances == old(queue.rectangles)
      ensures transitionAlpha == old(transitionAlpha) && transitionInstances == old(transitionInstances)
    {
      Update();
      trace := trace + [MainPass(mainInstances)];
      trace := trace + [TextDraw(pendingText, width, height)];
      pendingText := [];
      if transitionAlpha != 0.0 {
        trace := trace + [TransitionPass(transitionInstances)];
      }
    }
  }

  /** A fresh compositor rendered twice with nothing queued. */
  method EmptyFrames(width: nat, height: nat) returns (ghost first: seq<Event>, ghost second: seq<Event>)
    ensures first == [UpdateMain([]), MainPass([]), TextDraw([], width, height)]
    ensures second == first
  {
    var ui := new Ui();
    ui.Render(width, height);
    first := ui.trace;
    ui.Render(width, height);
    second := ui.trace[|first|..];
  }

  /**
   * One rectangle and a transition overlay queued, then two renders: the
   * second frame uploads nothing new for the base layer and still shows the
   * overlay of the last `set_transition_alpha`, exactly when its alpha is nonzero.
   */
  method OverlayFrames(base: RectangleInstance, overlay: RectangleInstance, width: nat, height: nat)
    returns (ghost first: seq<Event>, ghost second: seq<Event>)
    ensures first == [UpdateMain([base]), MainPass([base]), TextDraw([], width, height)]
                     + (if overlay.color.a != 0.0 then [TransitionPass([overlay])] else [])
    ensures second == [UpdateMain([]), MainPass([]), TextDraw([], width, height)]
                      + (if overlay.color.a != 0.0 then [TransitionPass([overlay])] else [])
  {
    var ui := new Ui();
    ui.QueueRectangle(base);
    ui.SetTransitionAlpha(overlay);
    assert ui.queue.rectangles == [base] && ui.pendingText == [];
    ghost var before := ui.trace;
    ui.Render(width, height);
    first := ui.trace[|before|..];
    assert first == Frame([base], [], overlay.color.a, [overlay], width, height);
    assert ui.queue.rectangles == [] && ui.pendingText == [];
    ghost var middle := ui.trace;
    ui.Render(width, height);
    second := ui.trace[|middle|..];
    assert second == Frame([], [], overlay.color.a, [overlay], width, height);
  }
}
