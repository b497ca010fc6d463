/** The detail page of one home: the same card transform as the listing at the
    larger image size, the sponsor action, and which of its four views it renders. */
module CareHomeDetail {
  import opened Js
  import opened HomeSchema
  import opened OrganizationPage

  const DetailLoadFailed: string := "Failed to load organization details. Please try again later."

  /** A client-side navigation with the router state the payment page reads. */
  datatype Navigation = Navigation(path: string, homeName: string, homeId: Id)

  /** The four views, in the order the component tests for them. */
  datatype View = LoadingView | ErrorView(message: string) | NotFoundView | DetailView(home: Card)

  /** The detail card agrees with the listing card in everything but the size of a
      default image: same category, description, needs and identity fields. */
  lemma DetailAgreesWithListing(h: Home)
    ensures ToCard(h, Large).(image := "") == ToCard(h, Thumb).(image := "")
    ensures Truthy(h.picture) ==> ToCard(h, Large) == ToCard(h, Thumb)
    ensures !Truthy(h.picture) ==> ToCard(h, Large).image == DefaultImage(h.homeType, Large)
  {
  }

  class DetailPage {
    var home: Option<Card>
    var loading: bool
    var error: Option<string>

    constructor ()
      ensures home == None && loading && error == None
    {
      home := None;
      loading := true;
      error := None;
    }

    /** `fetchHomeDetails`, given the home the request returned (absent when it
        failed, a 404 included): its card and no error, or no card and the error
        message. `loading` ends false either way. */
    method FetchHomeDetails(response: Option<Home>)
      modifies this
      ensures !loading
      ensures response.Some? ==> home == Some(ToCard(response.value, Large)) && error == None
      ensures response.None? ==> home == None && error == Some(DetailLoadFailed)
    {
      loading := true;
      if response.None? {
        error := Some(DetailLoadFailed);
        home := None;
      } else {
        home := Some(ToCard(response.value, Large));
        error := None;
      }
      loading := false;
    }

    /** `handleSponsor`: to the payment page with the home's name and id, and nowhere
        when no home is loaded. */
    method HandleSponsor() returns (nav: Option<Navigation>)
      ensures nav.Some? <==> home.Some?
      ensures nav.Some? ==> nav.value == Navigation("/payment", home.value.name, home.value.id)
    {
      if home.None? {
        return None;
      }
      nav := Some(Navigation("/payment", home.value.name, home.value.id));
    }

    /** The view rendered: loading first, then an error, then a missing home, then the detail. */
    function Render(): (v: View)
      reads this
      ensures loading ==> v == LoadingView
      ensures !loading && error.Some? && Truthy(error.value) ==> v == ErrorView(error.value)
      ensures v.NotFoundView? <==> !loading && (error.None? || !Truthy(error.value)) && home.None?
      ensures v.DetailView? ==> home == Some(v.home)
      ensures v.LoadingView? <==> loading
      ensures v.ErrorView? <==> !loading && error.Some? && Truthy(error.value)
      ensures !loading && (error.None? || !Truthy(error.value)) && home.Some? ==> v == DetailView(home.value)
    {
      if loading then LoadingView
      else if error.Some? && Truthy(error.value) then ErrorView(error.value)
      else if home.None? then NotFoundView
      else DetailView(home.value)
    }
  }

  /** After a fetch the page shows either the detail or the error, never the
      not-found view; the detail shows exactly the card of the home returned. */
  method FetchThenRender(page: DetailPage, response: Option<Home>) returns (v: View)
    modifies page
    ensures response.Some? ==> v == DetailView(ToCard(response.value, Large))
    ensures response.None? ==> v == ErrorView(DetailLoadFailed)
  {
    page.FetchHomeDetails(response);
    v := page.Render();
  }
}
