/**
 * `Network.Webservices`: the application-wide table of web services, keyed by
 * the base URL string they were registered under.
 */
module Network {
  import opened Foundation
  import opened HeaderProviders
  import opened RequestBehaviors
  import opened WebServices

  /** The registry; the source keeps one as a static dictionary. */
  class Registry {
    var webservices: map<string, Webservice>

    constructor ()
      ensures webservices == map[]
    {
      webservices := map[];
    }

    /**
     * `add(baseURLs:)`: one new web service per string, in input order, each
     * stored under its string in turn.
     */
    method AddAll(baseURLs: seq<string>, platform: Platform) returns (services: seq<Webservice>)
      requires forall i :: 0 <= i < |baseURLs| ==> platform.parseURL(baseURLs[i]).Some?
      modifies this
      ensures |services| == |baseURLs|
      ensures forall i :: 0 <= i < |services| ==>
        && fresh(services[i])
        && services[i].baseURL == platform.parseURL(baseURLs[i]).value
        && services[i].unauthorizedResponseHandler == None
        && services[i].behavior == Empty
      ensures forall i, j :: 0 <= i < j < |services| ==> services[i] != services[j]
      ensures webservices == StoreEach(old(webservices), baseURLs, services)
    {
      services := [];
      for n := 0 to |baseURLs|
        invariant |services| == n
        invariant forall i :: 0 <= i < n ==>
          && fresh(services[i])
          && services[i].baseURL == platform.parseURL(baseURLs[i]).value
          && services[i].unauthorizedResponseHandler == None
          && services[i].behavior == Empty
        invariant forall i, j :: 0 <= i < j < n ==> services[i] != services[j]
        invariant webservices == StoreEach(old(webservices), baseURLs[..n], services)
      {
        var baseURL := baseURLs[n];
        var webservice := new Webservice(platform.parseURL(baseURL).value);
        assert baseURLs[..n + 1][..n] == baseURLs[..n];
        assert (services + [webservice])[..n] == services;
        webservices := webservices[baseURL := webservice];
        services := services + [webservice];
      }
      assert baseURLs[..|baseURLs|] == baseURLs;
    }

    /**
     * `add(baseURL:authorizationHandler:defaultHeaders:session:)`: a new web
     * service stored under its string, replacing any earlier one. The default
     * headers are accepted and dropped: the web service has nowhere to keep them.
     */
    method Add(baseURL: string, platform: Platform, authorizationHandler: Option<HandlerId> := None,
               defaultHeaders: Option<HeaderProvider> := None)
      returns (webservice: Webservice)
      requires platform.parseURL(baseURL).Some?
      modifies this
      ensures fresh(webservice)
      ensures webservice.baseURL == platform.parseURL(baseURL).value
      ensures webservice.unauthorizedResponseHandler == authorizationHandler
      ensures webservice.behavior == Empty
      ensures webservices == old(webservices)[baseURL := webservice]
    {
      webservice := new Webservice(platform.parseURL(baseURL).value, authorizationHandler);
      webservices := webservices[baseURL := webservice];
    }

    /** `baseURL(_:)`: the web service registered under the string, which must be there. */
    method BaseURL(baseURL: string) returns (webservice: Webservice)
      requires baseURL in webservices
      ensures webservice == webservices[baseURL]
    {
      webservice := webservices[baseURL];
    }
  }
}
