/**
 * The state of the `App` component: the loading flag, the stored request
 * error and the country list, the transition that settles the one fetch,
 * the toggle a card click triggers, and which view a render produces.
 */
module Favorites {
  import opened Wrappers
  import opened Countries

  /** The error the HTTP client raises; only its message reaches the view. */
  datatype AxiosError = AxiosError(message: string)

  /** How the fetch of the country list settles. */
  datatype FetchOutcome =
    | Success(response: seq<Country>)  // the response body, before `like` is reset
    | AxiosFailure(err: AxiosError)    // the HTTP client raised its own error type
    | OtherFailure                     // any other exception, only logged

  /** What one render of the component shows. */
  datatype View =
    | LoadingView
    | ErrorView(message: string)
    | GridView(favorites: seq<Country>, others: seq<Country>)

  /**
   * Render precedence: loading wins over an error, an error wins over the
   * grids, and the grids are the liked records followed by the others.
   */
  function SelectView(isLoading: bool, error: Option<AxiosError>, countries: seq<Country>): (v: View)
    ensures v.LoadingView? <==> isLoading
    ensures v.ErrorView? <==> !isLoading && error.Some?
    ensures v.ErrorView? ==> v.message == error.value.message
    ensures v.GridView? <==> !isLoading && error.None?
    ensures v.GridView? ==> v.favorites == Liked(countries) && v.others == Others(countries)
  {
    if isLoading then LoadingView
    else if error.Some? then ErrorView(error.value.message)
    else GridView(Liked(countries), Others(countries))
  }

  /** The grids a render shows hold every stored record exactly once, in load order within each grid. */
  lemma GridsPartitionCountries(isLoading: bool, error: Option<AxiosError>, countries: seq<Country>)
    requires SelectView(isLoading, error, countries).GridView?
    ensures var v := SelectView(isLoading, error, countries);
      && multiset(v.favorites) + multiset(v.others) == multiset(countries)
      && |v.favorites| + |v.others| == |countries|
      && Embedding(v.favorites, countries, Positions(countries, true, 0))
      && Embedding(v.others, countries, Positions(countries, false, 0))
  {
    PartitionMultiset(countries);
    PartitionLength(countries);
    KeepIsSubsequence(countries, true);
    KeepIsSubsequence(countries, false);
  }

  class App {
    var isLoading: bool
    var error: Option<AxiosError>
    var countries: seq<Country>

    /** Until the fetch settles there is neither an error nor any data. */
    ghost predicate Valid()
      reads this
    {
      isLoading ==> error == None && countries == []
    }

    /** The state on mount: loading, no error, no countries. */
    constructor ()
      ensures Valid()
      ensures isLoading && error == None && countries == []
    {
      isLoading := true;
      error := None;
      countries := [];
    }

    /**
     * The fetch settles: a response is stored with every `like` reset, an
     * HTTP-client error is stored, any other failure stores nothing, and in
     * every case loading ends.
     */
    method Settle(outcome: FetchOutcome)
      requires Valid()
      modifies this
      ensures Valid()
      ensures !isLoading
      ensures countries == (if outcome.Success? then InitLoad(outcome.response) else old(countries))
      ensures error == (if outcome.AxiosFailure? then Some(outcome.err) else old(error))
    {
      match outcome {
        case Success(response) =>
          countries := InitLoad(response);
        case AxiosFailure(err) =>
          error := Some(err);
        case OtherFailure =>
      }
      isLoading := false;
    }

    /** A card click: flip `like` on every stored record with this name. */
    method ToggleLike(name: string)
      requires Valid()
      modifies this`countries
      ensures Valid()
      ensures countries == Toggle(old(countries), name)
      ensures old(isLoading) ==> countries == old(countries)
    {
      countries := Toggle(countries, name);
    }

    /**
     * What the component renders from its current state: the view
     * `SelectView` picks; when it is the grids, they split the stored list.
     */
    function Render(): (v: View)
      reads this
      ensures v.LoadingView? <==> isLoading
      ensures v.ErrorView? <==> !isLoading && error.Some?
      ensures v.GridView? ==> multiset(v.favorites) + multiset(v.others) == multiset(countries)
      ensures v.GridView? ==> |v.favorites| + |v.others| == |countries|
    {
      PartitionMultiset(countries);
      PartitionLength(countries);
      SelectView(isLoading, error, countries)
    }
  }
}
