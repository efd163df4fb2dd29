/** The star-rating widget: the row of star flags it renders for a rating,
    and its local maximum-rating threshold, which starts small and can only
    jump to the cheat-mode value. */
module Rating {

  /** The threshold a widget starts with. */
  const InitialMaxRating: nat := 5

  /** The threshold in cheat mode. */
  const MaxRatingInCheatMode: nat := 500

  function Max(a: nat, b: nat): nat { if a < b then b else a }

  function Min(a: nat, b: nat): nat { if a < b then a else b }

  /** One position of the JavaScript array of stars: a position never written
      is a hole; a written one holds whether the star is filled. */
  datatype StarSlot = Hole | Star(filled: bool)

  // ---------------------------------------------------------------------------
  // The star row, as a value
  // ---------------------------------------------------------------------------

  /** The star array for `rating` under threshold `maxRating`: the array is
      created with `rating` holes, then the first `maxRating` positions are
      written, which lengthens it where `maxRating` is the larger. */
  function StarsOf(rating: nat, maxRating: nat): seq<StarSlot>
  {
    seq(Max(rating, maxRating), i => if i < maxRating then Star(i < rating) else Hole)
  }

  /** The number of filled stars in a row of slots. */
  function CountFilled(s: seq<StarSlot>): nat
  {
    if s == [] then 0
    else CountFilled(s[..|s| - 1]) + (if s[|s| - 1] == Star(true) then 1 else 0)
  }

  /** The first `k` written positions of a star row for `rating`. */
  function WrittenRow(rating: nat, k: nat): seq<StarSlot>
  {
    seq(k, i => Star(i < rating))
  }

  lemma {:induction false} WrittenRowCount(rating: nat, k: nat)
    ensures CountFilled(WrittenRow(rating, k)) == Min(rating, k)
  {
    if k > 0 {
      assert WrittenRow(rating, k)[..k - 1] == WrittenRow(rating, k - 1);
      WrittenRowCount(rating, k - 1);
    }
  }

  /** Among the positions below the threshold, exactly min(rating, maxRating)
      stars are filled. */
  lemma FilledCount(rating: nat, maxRating: nat)
    ensures CountFilled(StarsOf(rating, maxRating)[..maxRating]) == Min(rating, maxRating)
  {
    assert StarsOf(rating, maxRating)[..maxRating] == WrittenRow(rating, maxRating);
    WrittenRowCount(rating, maxRating);
  }

  /** With the rating within the threshold, the row is exactly `maxRating`
      long, with no holes, and star `i` is filled iff `i < rating`. */
  lemma StarsWithinThreshold(rating: nat, maxRating: nat)
    requires rating <= maxRating
    ensures StarsOf(rating, maxRating) == WrittenRow(rating, maxRating)
  {
  }

  // ---------------------------------------------------------------------------
  // The threshold, as a value
  // ---------------------------------------------------------------------------

  /** The widget's state: the current rating and the threshold. */
  datatype Widget = Widget(rating: nat, maxRating: nat)

  /** What can happen to a widget: the rating is set (by the user, or by the
      owner through the binding), the change check runs, or cheat mode is
      entered. A change of the bound rating from outside is `RateTo(v)`
      followed by `InputChanged`. */
  datatype Event = RateTo(value: nat) | InputChanged | CheatModeEntered

  /** The thresholds a widget can have. */
  predicate ValidMaxRating(maxRating: nat)
  {
    maxRating == InitialMaxRating || maxRating == MaxRatingInCheatMode
  }

  /** The effect of one event on a widget. */
  function Step(w: Widget, e: Event): Widget
  {
    match e
    case RateTo(v) => w.(rating := v)
    case InputChanged =>
      if w.rating > w.maxRating then w.(maxRating := MaxRatingInCheatMode) else w
    case CheatModeEntered => w.(maxRating := MaxRatingInCheatMode)
  }

  /** The effect of a sequence of events, in order. */
  function Run(w: Widget, events: seq<Event>): Widget
    decreases |events|
  {
    if events == [] then w else Run(Step(w, events[0]), events[1..])
  }

  /** One event never lowers the threshold and keeps it one of the two
      allowed values. */
  lemma StepKeepsThreshold(w: Widget, e: Event)
    requires ValidMaxRating(w.maxRating)
    ensures ValidMaxRating(Step(w, e).maxRating)
    ensures Step(w, e).maxRating >= w.maxRating
  {
  }

  /** Over any sequence of events the threshold stays one of the two allowed
      values and never decreases. */
  lemma {:induction false} RunKeepsThreshold(w: Widget, events: seq<Event>)
    requires ValidMaxRating(w.maxRating)
    ensures ValidMaxRating(Run(w, events).maxRating)
    ensures Run(w, events).maxRating >= w.maxRating
    decreases |events|
  {
    if events != [] {
      StepKeepsThreshold(w, events[0]);
      RunKeepsThreshold(Step(w, events[0]), events[1..]);
    }
  }

  /** Once the threshold has escalated it stays escalated, whatever ratings
      follow, lower ones included. */
  lemma EscalationIsPermanent(w: Widget, events: seq<Event>)
    requires w.maxRating == MaxRatingInCheatMode
    ensures Run(w, events).maxRating == MaxRatingInCheatMode
  {
    RunKeepsThreshold(w, events);
  }

  /** Rating changes only the rating; escalation happens only when the
      change is observed. */
  lemma RateThenObserve(w: Widget, v: nat)
    ensures Step(w, RateTo(v)) == Widget(v, w.maxRating)
    ensures Step(Step(w, RateTo(v)), InputChanged).maxRating ==
              if v > w.maxRating then MaxRatingInCheatMode else w.maxRating
  {
  }

  /** Entering cheat mode twice is entering it once. */
  lemma CheatModeIdempotent(w: Widget)
    ensures Step(Step(w, CheatModeEntered), CheatModeEntered) == Step(w, CheatModeEntered)
  {
  }

  /** The walk-through: a widget at rating 4 and threshold 5 is rated 6; once
      that is observed the threshold is 500 and the row holds 500 stars, the
      first six filled. */
  lemma EscalationScenario()
    ensures Run(Widget(4, InitialMaxRating), [RateTo(6), InputChanged]) == Widget(6, MaxRatingInCheatMode)
    ensures |StarsOf(6, MaxRatingInCheatMode)| == 500
    ensures forall i :: 0 <= i < 500 ==> StarsOf(6, MaxRatingInCheatMode)[i] == Star(i < 6)
  {
  }

  // ---------------------------------------------------------------------------
  // The component
  // ---------------------------------------------------------------------------

  class RatingComponent {
    var rating: nat
    var maxRating: nat

    ghost predicate Valid()
      reads this
    {
      ValidMaxRating(maxRating)
    }

    /** The widget's state as a value. */
    function State(): Widget
      reads this
    {
      Widget(rating, maxRating)
    }

    /** A widget bound to `rating`, with the initial threshold. The framework
        runs the change check once before the widget is first shown, so this
        state is rendered only after `OnChanges`. */
    constructor (rating: nat)
      ensures Valid()
      ensures this.rating == rating && maxRating == InitialMaxRating
    {
      this.rating := rating;
      maxRating := InitialMaxRating;
    }

    /** The bound rating changed: a rating above the threshold escalates it
        to the cheat-mode value; otherwise nothing changes. */
    method OnChanges()
      requires Valid()
      modifies this
      ensures Valid()
      ensures State() == Step(old(State()), InputChanged)
      ensures rating == old(rating)
      ensures maxRating == if old(rating) > old(maxRating) then MaxRatingInCheatMode else old(maxRating)
    {
      if rating > maxRating {
        maxRating := MaxRatingInCheatMode;
      }
    }

    /** The star array for `rating` under threshold `maxRating`: `rating`
        holes to start with, then one write per position below `maxRating`. */
    method ToStars(rating: nat, maxRating: nat) returns (stars: array<StarSlot>)
      ensures fresh(stars)
      ensures stars.Length == Max(rating, maxRating)
      ensures forall i :: 0 <= i < maxRating ==> stars[i] == Star(i < rating)
      ensures forall i :: maxRating <= i < stars.Length ==> stars[i] == Hole
      ensures stars[..] == StarsOf(rating, maxRating)
    {
      stars := new StarSlot[Max(rating, maxRating)](_ => Hole);
      for i := 0 to maxRating
        invariant forall k :: 0 <= k < i ==> stars[k] == Star(k < rating)
        invariant forall k :: i <= k < stars.Length ==> stars[k] == Hole
      {
        stars[i] := Star(i < rating);
      }
    }

    /** The stars the widget renders, for its current rating and threshold. */
    method Stars() returns (stars: array<StarSlot>)
      ensures stars[..] == StarsOf(rating, maxRating)
    {
      stars := ToStars(rating, maxRating);
    }

    /** The user rated: the rating is set and the threshold is untouched. */
    method Rate(rating: nat)
      requires Valid()
      modifies this
      ensures Valid()
      ensures State() == Step(old(State()), RateTo(rating))
      ensures this.rating == rating && maxRating == old(maxRating)
    {
      this.rating := rating;
    }

    /** Cheat mode: the threshold becomes the cheat-mode value whatever the
        rating; the rating is untouched. */
    method EnterCheatMode()
      requires Valid()
      modifies this
      ensures Valid()
      ensures State() == Step(old(State()), CheatModeEntered)
      ensures rating == old(rating) && maxRating == MaxRatingInCheatMode
    {
      maxRating := MaxRatingInCheatMode;
    }
  }

  /** A client of the component: the escalation walk-through on an object. */
  method WidgetScenario()
  {
    var w := new RatingComponent(4);
    var before := w.Stars();
    assert before.Length == 5;
    w.Rate(6);
    assert w.maxRating == InitialMaxRating;
    w.OnChanges();
    assert w.maxRating == MaxRatingInCheatMode;
    w.Rate(2);
    w.OnChanges();
    assert w.maxRating == MaxRatingInCheatMode;
  }
}
