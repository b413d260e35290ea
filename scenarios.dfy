/**
 * Clients of the component: one mount, the fetch settling, and card clicks,
 * each observed through what the component renders afterwards.
 */
module Scenarios {
  import opened Wrappers
  import opened Countries
  import opened Favorites

  /** While the fetch is pending only the loading view is rendered, and a click changes nothing. */
  method MountPending(name: string) returns (v: View)
    ensures v == LoadingView
  {
    var app := new App();
    app.ToggleLike(name);
    assert app.countries == [];
    v := app.Render();
  }

  /** A successful fetch renders an empty favourites grid and every record, unliked, in the other grid. */
  method MountAndLoad(response: seq<Country>) returns (v: View)
    ensures v.GridView?
    ensures v.favorites == []
    ensures |v.others| == |response|
    ensures forall i :: 0 <= i < |response| ==> SameRecord(v.others[i], response[i]) && !v.others[i].like
  {
    var app := new App();
    app.Settle(Success(response));
    InitLoadPartition(response);
    v := app.Render();
  }

  /** An HTTP-client failure renders only the error view, carrying the error's message. */
  method MountAndFail(err: AxiosError) returns (v: View)
    ensures v == ErrorView(err.message)
  {
    var app := new App();
    app.Settle(AxiosFailure(err));
    v := app.Render();
  }

  /** Any other failure renders neither loading nor an error, and both grids empty. */
  method MountAndOtherFailure() returns (v: View)
    ensures v == GridView([], [])
  {
    var app := new App();
    app.Settle(OtherFailure);
    v := app.Render();
  }

  /**
   * One click on a card after a successful load: the favourites grid holds
   * exactly the loaded records carrying that name, now liked, and the two
   * grids still hold as many records as the response.
   */
  method LoadAndClick(response: seq<Country>, name: string) returns (v: View)
    ensures v.GridView?
    ensures |v.favorites| + |v.others| == |response|
    ensures forall c :: c in v.favorites <==> c.like && c.name == name && c.(like := false) in InitLoad(response)
  {
    var app := new App();
    app.Settle(Success(response));
    app.ToggleLike(name);
    v := app.Render();
    PartitionLength(app.countries);
    InitLoadPartition(response);
    forall c
      ensures c in v.favorites <==> c.like && c.name == name && c.(like := false) in InitLoad(response)
    {
      ToggleLikedMembers(InitLoad(response), name, c);
      KeepMembers(InitLoad(response), false, c.(like := false));
    }
  }

  /** Clicking the same card twice after a load renders what the load alone rendered. */
  method LoadAndClickTwice(response: seq<Country>, name: string) returns (v: View)
    ensures v == GridView([], InitLoad(response))
  {
    var app := new App();
    app.Settle(Success(response));
    app.ToggleLike(name);
    app.ToggleLike(name);
    ToggleInvolutive(InitLoad(response), name);
    InitLoadPartition(response);
    v := app.Render();
  }

  /** One record named "Korea": load it, click it, click it again. */
  method KoreaRoundTrip() returns (loaded: View, clicked: View, clickedAgain: View)
    ensures loaded == GridView([], [Country("Korea", "Seoul", "k.png", false)])
    ensures clicked == GridView([Country("Korea", "Seoul", "k.png", true)], [])
    ensures clickedAgain == loaded
  {
    var korea := Country("Korea", "Seoul", "k.png", false);
    var app := new App();
    app.Settle(Success([korea]));
    InitLoadPartition([korea]);
    assert app.countries == [korea];
    loaded := app.Render();

    app.ToggleLike("Korea");
    var liked := korea.(like := true);
    assert app.countries == [liked];
    assert Keep([liked], true) == [liked];
    clicked := app.Render();

    app.ToggleLike("Korea");
    assert app.countries == [korea];
    clickedAgain := app.Render();
  }

  /** A transport error whose message is "Network Error", and an empty response. */
  method NetworkErrorAndEmptyResponse() returns (failed: View, empty: View)
    ensures failed == ErrorView("Network Error")
    ensures empty == GridView([], [])
  {
    failed := MountAndFail(AxiosError("Network Error"));
    empty := MountAndLoad([]);
  }
}
