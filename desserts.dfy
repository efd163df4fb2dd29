/** The dessert list view: the query gate in front of the search, the overlay
    of a sparse id-to-rating map onto the fetched list, and the two state
    updates of the ratings overlay (a per-card update and a wholesale load). */
module Desserts {

  datatype Option<T> = None | Some(value: T)

  /** A dessert as delivered by the data source. The fields the view does not
      look at are kept together, by name, in `details`. */
  datatype Dessert = Dessert(
    id: int,
    originalName: string,
    englishName: string,
    rating: int,
    details: map<string, string>)

  /** The pair of query strings handed to the search. */
  datatype DessertFilter = DessertFilter(originalName: string, englishName: string)

  /** What the expert-ratings service delivers: the whole overlay, or an error. */
  datatype RatingsResponse = Loaded(ratings: map<int, int>) | LoadFailed

  /** A query string has to be at least this long to start a search. */
  const MinQueryLength: nat := 3

  // ---------------------------------------------------------------------------
  // The query gate
  // ---------------------------------------------------------------------------

  /** The filter in front of the debounced search: at least one of the two
      query strings must have reached the minimum length. */
  predicate Gate(c: DessertFilter)
  {
    |c.englishName| >= MinQueryLength || |c.originalName| >= MinQueryLength
  }

  /** The filtering stage applied to the stream of combined query pairs: it
      keeps, in order, exactly the pairs that pass the gate. */
  function Gated(emissions: seq<DessertFilter>): (r: seq<DessertFilter>)
    ensures |r| <= |emissions|
    ensures forall c :: c in r <==> c in emissions && Gate(c)
  {
    if emissions == [] then []
    else if Gate(emissions[0]) then [emissions[0]] + Gated(emissions[1..])
    else Gated(emissions[1..])
  }

  /** Gating distributes over a stream split in two: what passes a longer
      stream is what passed its first part followed by what passes the rest. */
  lemma {:induction false} GatedAppend(a: seq<DessertFilter>, b: seq<DessertFilter>)
    ensures Gated(a + b) == Gated(a) + Gated(b)
  {
    if a == [] {
      assert a + b == b;
    } else {
      assert (a + b)[1..] == a[1..] + b;
      GatedAppend(a[1..], b);
    }
  }

  /** A query that passes the gate still passes when either string is typed
      further: the gate is monotone under extension of the query strings. */
  lemma GateExtends(c: DessertFilter, moreOriginal: string, moreEnglish: string)
    requires Gate(c)
    ensures Gate(DessertFilter(c.originalName + moreOriginal, c.englishName + moreEnglish))
  {
  }

  /** The query pair the view starts with passes the gate; a two-letter name
      with an empty English name does not, and "Pala" does. */
  lemma GateExamples()
    ensures Gate(DessertFilter("Pala", ""))
    ensures !Gate(DessertFilter("Pa", ""))
    ensures Gated([DessertFilter("Pa", ""), DessertFilter("Pala", "")]) == [DessertFilter("Pala", "")]
  {
  }

  /** The pair the debounce holds after one more combined pair: the gate runs
      before the debounce, so a pair that fails it never reaches the debounce
      and the pair held before stays held. */
  function Hold(held: Option<DessertFilter>, c: DessertFilter): Option<DessertFilter>
  {
    if Gate(c) then Some(c) else held
  }

  /** The pair the debounce holds after a run of combined pairs. */
  function HoldAll(held: Option<DessertFilter>, emissions: seq<DessertFilter>): Option<DessertFilter>
    decreases |emissions|
  {
    if emissions == [] then held else HoldAll(Hold(held, emissions[0]), emissions[1..])
  }

  /** When the debounce settles it sends to the search the last pair that got
      through the gate, however many failing pairs came after it; when none
      got through it still holds what it held before. */
  lemma {:induction false} HoldAllIsLastGated(held: Option<DessertFilter>, emissions: seq<DessertFilter>)
    ensures HoldAll(held, emissions) ==
              if Gated(emissions) == [] then held else Some(Gated(emissions)[|Gated(emissions)| - 1])
    decreases |emissions|
  {
    if emissions != [] {
      HoldAllIsLastGated(Hold(held, emissions[0]), emissions[1..]);
    }
  }

  /** Typing "Pala" and deleting back to "Pa" before the debounce settles
      still searches for "Pala". */
  lemma TypeThenDelete()
    ensures HoldAll(None, [DessertFilter("Pala", ""), DessertFilter("Pa", "")]) == Some(DessertFilter("Pala", ""))
  {
  }

  // ---------------------------------------------------------------------------
  // The merge of the fetched list with the ratings overlay
  // ---------------------------------------------------------------------------

  /** The overlay replaces a dessert's rating only when its entry is truthy
      in JavaScript's sense: present, and not zero. */
  predicate Overrides(ratings: map<int, int>, id: int)
  {
    id in ratings && ratings[id] != 0
  }

  /** One dessert with the overlay applied: a copy with the overlaid rating,
      or the dessert itself. */
  function Rated(d: Dessert, ratings: map<int, int>): Dessert
  {
    if Overrides(ratings, d.id) then d.(rating := ratings[d.id]) else d
  }

  /** The displayed list: every fetched dessert, in order, with the overlay
      applied where it has a truthy entry for that dessert's id. */
  function ToRated(desserts: seq<Dessert>, ratings: map<int, int>): (r: seq<Dessert>)
    ensures |r| == |desserts|
    ensures forall i :: 0 <= i < |desserts| ==> r[i].id == desserts[i].id
    ensures forall i :: 0 <= i < |desserts| && Overrides(ratings, desserts[i].id) ==>
              r[i] == desserts[i].(rating := ratings[desserts[i].id])
    ensures forall i :: 0 <= i < |desserts| && !Overrides(ratings, desserts[i].id) ==>
              r[i] == desserts[i]
  {
    if desserts == [] then []
    else [Rated(desserts[0], ratings)] + ToRated(desserts[1..], ratings)
  }

  /** With the empty overlay the view starts with, the displayed list is the
      fetched list. */
  lemma ToRatedEmpty(desserts: seq<Dessert>)
    ensures ToRated(desserts, map[]) == desserts
  {
  }

  /** An entry of zero in the overlay has the same effect as no entry. */
  lemma ToRatedZeroIsAbsent(desserts: seq<Dessert>, ratings: map<int, int>, id: int)
    ensures ToRated(desserts, ratings[id := 0]) == ToRated(desserts, ratings - {id})
  {
  }

  /** Applying the overlay to an already overlaid list changes nothing. */
  lemma ToRatedIdempotent(desserts: seq<Dessert>, ratings: map<int, int>)
    ensures ToRated(ToRated(desserts, ratings), ratings) == ToRated(desserts, ratings)
  {
  }

  /** The overlay never changes what is displayed apart from ratings: the
      displayed list agrees with the fetched one on every other field. */
  lemma ToRatedKeepsDescriptions(desserts: seq<Dessert>, ratings: map<int, int>, i: nat)
    requires i < |desserts|
    ensures ToRated(desserts, ratings)[i].(rating := 0) == desserts[i].(rating := 0)
  {
  }

  // ---------------------------------------------------------------------------
  // The per-card rating update
  // ---------------------------------------------------------------------------

  /** The updater handed to the ratings signal: a new overlay equal to the
      old one except that `id` now maps to `rating`. */
  function WithRating(ratings: map<int, int>, id: int, rating: int): (r: map<int, int>)
    ensures r.Keys == ratings.Keys + {id}
    ensures r[id] == rating
    ensures forall k :: k in ratings && k != id ==> r[k] == ratings[k]
  {
    ratings[id := rating]
  }

  /** Rating the same dessert with the same value twice is the same as once. */
  lemma WithRatingIdempotent(ratings: map<int, int>, id: int, rating: int)
    ensures WithRating(WithRating(ratings, id, rating), id, rating) == WithRating(ratings, id, rating)
  {
  }

  /** A later rating of a dessert supersedes an earlier one. */
  lemma WithRatingLastWins(ratings: map<int, int>, id: int, first: int, second: int)
    ensures WithRating(WithRating(ratings, id, first), id, second) == WithRating(ratings, id, second)
  {
  }

  /** After a nonzero rating of `id` is committed, every displayed dessert
      with that id shows it, and every other displayed dessert is exactly as
      it was displayed before. */
  lemma RatedAfterUpdate(desserts: seq<Dessert>, ratings: map<int, int>, id: int, rating: int, i: nat)
    requires i < |desserts|
    ensures desserts[i].id == id && rating != 0 ==>
              ToRated(desserts, WithRating(ratings, id, rating))[i] == desserts[i].(rating := rating)
    ensures desserts[i].id != id ==>
              ToRated(desserts, WithRating(ratings, id, rating))[i] == ToRated(desserts, ratings)[i]
  {
  }

  // ---------------------------------------------------------------------------
  // The component's state
  // ---------------------------------------------------------------------------

  /** The list view: its two query strings, the loading flag, the ratings
      overlay and the last fetched list, and the query pair the search
      stream's debounce holds and has not yet sent to the search. */
  class DessertsComponent {
    var originalName: string
    var englishName: string
    var loading: bool
    var ratings: map<int, int>
    var desserts: seq<Dessert>
    var pending: Option<DessertFilter>

    /** Only pairs that passed the gate reach the debounce. */
    ghost predicate Valid()
      reads this
    {
      pending.Some? ==> Gate(pending.value)
    }

    /** The initial state. The stream combines the initial pair at once; it
        passes the gate, so the debounce holds it. */
    constructor ()
      ensures Valid()
      ensures originalName == "Pala" && englishName == ""
      ensures !loading
      ensures ratings == map[] && desserts == []
      ensures RatedDesserts() == []
      ensures pending == Some(DessertFilter("Pala", ""))
    {
      originalName := "Pala";
      englishName := "";
      loading := false;
      ratings := map[];
      desserts := [];
      pending := Hold(None, DessertFilter("Pala", ""));
    }

    /** The current query pair, as the search stream combines it. */
    function Query(): DessertFilter
      reads this
    {
      DessertFilter(originalName, englishName)
    }

    /** What the view displays: the fetched list merged with the overlay. */
    function RatedDesserts(): seq<Dessert>
      reads this
    {
      ToRated(desserts, ratings)
    }

    /** The user set the original-name query. A signal notifies only when
        its value changes: then the stream combines the new pair, and the gate
        lets it through to the debounce or drops it; setting the same value
        emits nothing. */
    method EditOriginalName(value: string)
      requires Valid()
      modifies this
      ensures Valid()
      ensures originalName == value && englishName == old(englishName)
      ensures pending == if value == old(originalName) then old(pending) else Hold(old(pending), Query())
      ensures loading == old(loading) && ratings == old(ratings) && desserts == old(desserts)
    {
      if value != originalName {
        originalName := value;
        pending := Hold(pending, Query());
      }
    }

    /** The user set the English-name query, with the same effect on the
        stream as an edit of the original name. */
    method EditEnglishName(value: string)
      requires Valid()
      modifies this
      ensures Valid()
      ensures englishName == value && originalName == old(originalName)
      ensures pending == if value == old(englishName) then old(pending) else Hold(old(pending), Query())
      ensures loading == old(loading) && ratings == old(ratings) && desserts == old(desserts)
    {
      if value != englishName {
        englishName := value;
        pending := Hold(pending, Query());
      }
    }

    /** The debounce settled: the pair it holds, if any, is the filter sent
        to the search, and the loading flag is raised; with nothing held,
        nothing happens. */
    method StartSearch() returns (fetch: Option<DessertFilter>)
      requires Valid()
      modifies this
      ensures Valid()
      ensures fetch == old(pending) && pending == None
      ensures fetch.Some? ==> Gate(fetch.value)
      ensures loading == (fetch.Some? || old(loading))
      ensures originalName == old(originalName) && englishName == old(englishName)
      ensures ratings == old(ratings) && desserts == old(desserts)
    {
      fetch := pending;
      pending := None;
      if fetch.Some? {
        loading := true;
      }
    }

    /** The search delivered its list: it becomes the fetched list and the
        loading flag is cleared; the overlay is untouched. */
    method FinishSearch(found: seq<Dessert>)
      requires Valid()
      modifies this
      ensures Valid()
      ensures desserts == found && !loading
      ensures ratings == old(ratings) && pending == old(pending)
      ensures originalName == old(originalName) && englishName == old(englishName)
      ensures RatedDesserts() == ToRated(found, old(ratings))
    {
      desserts := found;
      loading := false;
    }

    /** Start of a ratings load: the loading flag is raised. */
    method StartLoadRatings()
      requires Valid()
      modifies this
      ensures Valid()
      ensures loading
      ensures ratings == old(ratings) && desserts == old(desserts) && pending == old(pending)
      ensures originalName == old(originalName) && englishName == old(englishName)
    {
      loading := true;
    }

    /** Completion of a ratings load: on success the overlay is replaced
        wholesale, on failure it is kept; either way loading is cleared. */
    method FinishLoadRatings(response: RatingsResponse)
      requires Valid()
      modifies this
      ensures Valid()
      ensures !loading
      ensures ratings == if response.Loaded? then response.ratings else old(ratings)
      ensures desserts == old(desserts) && pending == old(pending)
      ensures originalName == old(originalName) && englishName == old(englishName)
    {
      match response
      case Loaded(m) =>
        ratings := m;
        loading := false;
      case LoadFailed =>
        loading := false;
    }

    /** A card reported a new rating: the overlay gets the new entry. */
    method UpdateRating(id: int, rating: int)
      requires Valid()
      modifies this
      ensures Valid()
      ensures ratings == WithRating(old(ratings), id, rating)
      ensures loading == old(loading) && desserts == old(desserts) && pending == old(pending)
      ensures originalName == old(originalName) && englishName == old(englishName)
    {
      ratings := WithRating(ratings, id, rating);
    }
  }

  /** The walk-through of a rating: with an empty overlay and one fetched
      dessert rated 2, rating it 5 makes the overlay {1: 5} and the view show
      rating 5. */
  method RatingScenario()
  {
    var view := new DessertsComponent();
    var d := Dessert(1, "Palatschinken", "Pancakes", 2, map[]);
    view.FinishSearch([d]);
    assert view.RatedDesserts() == [d];
    view.UpdateRating(1, 5);
    assert view.ratings == map[1 := 5];
    assert view.RatedDesserts()[0].rating == 5;
  }

  /** The search walk-through: the initial query is searched for; setting
      the same name again searches for nothing; "Pa" alone is not searched
      for; "Pala" deleted back to "Pa" before the debounce settles is still
      searched for as "Pala"; and clearing both strings one after the other
      searches for the intermediate pair that still passed the gate. */
  method SearchScenario()
  {
    var view := new DessertsComponent();
    var fetch := view.StartSearch();
    assert fetch == Some(DessertFilter("Pala", "")) && view.loading;
    view.FinishSearch([]);
    view.EditOriginalName("Pala");
    fetch := view.StartSearch();
    assert fetch == None && !view.loading;
    view.EditOriginalName("Pa");
    fetch := view.StartSearch();
    assert fetch == None && !view.loading;
    view.EditOriginalName("Pala");
    view.EditOriginalName("Pa");
    fetch := view.StartSearch();
    assert fetch == Some(DessertFilter("Pala", ""));
    view.FinishSearch([]);
    view.EditEnglishName("Pancake");
    view.EditOriginalName("");
    fetch := view.StartSearch();
    assert fetch == Some(DessertFilter("", "Pancake"));
    view.FinishSearch([]);
    view.EditOriginalName("P");
    view.EditEnglishName("");
    fetch := view.StartSearch();
    assert fetch == Some(DessertFilter("P", "Pancake"));
  }

  /** A failed load keeps the overlay that a user's rating put there. */
  method FailedLoadScenario()
  {
    var view := new DessertsComponent();
    view.UpdateRating(7, 4);
    view.StartLoadRatings();
    assert view.loading;
    view.FinishLoadRatings(LoadFailed);
    assert view.ratings == map[7 := 4] && !view.loading;
  }
}
