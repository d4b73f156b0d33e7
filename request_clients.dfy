/**
 * The request-client registries: `PlaywrightClient` keeps browsers, contexts and pages
 * by id, each beside a lookup set that guards adding and removing; `HttpxClient` does
 * the same for httpx clients. Library objects are opaque values that remember what
 * they were made from; closing them is outside the model.
 */
module RequestClients {
  import opened Wrappers
  import opened PyValues
  import opened RequestParse

  /** A Playwright object: a launched browser, a context of a browser, a page of a context. */
  datatype Resource = Browser(core: string) | Context(browserId: string) | Page(contextId: string)

  /** The attributes of a started Playwright whose `launch` starts a browser. */
  const BrowserTypes: set<string> := {"chromium", "firefox", "webkit"}

  class PlaywrightClient {
    var parser: Option<PParsed>
    var hasPlaywright: bool
    var browser: map<string, Resource>
    var browserLookup: set<string>
    var context: map<string, Resource>
    var contextLookup: set<string>
    var page: map<string, Resource>
    var pageLookup: set<string>

    /** Every stored object is listed in its lookup set. */
    predicate Valid()
      reads this
    {
      browser.Keys <= browserLookup && context.Keys <= contextLookup && page.Keys <= pageLookup
    }

    constructor ()
      ensures Valid()
      ensures parser.None? && !hasPlaywright
      ensures browser == map[] && context == map[] && page == map[]
      ensures browserLookup == {} && contextLookup == {} && pageLookup == {}
    {
      parser := None;
      hasPlaywright := false;
      browser, context, page := map[], map[], map[];
      browserLookup, contextLookup, pageLookup := {}, {}, {};
    }

    /** `create_async_playwright`: starts Playwright once. */
    method CreateAsyncPlaywright()
      modifies this
      ensures hasPlaywright
      ensures parser == old(parser)
      ensures browser == old(browser) && context == old(context) && page == old(page)
      ensures browserLookup == old(browserLookup) && contextLookup == old(contextLookup)
      ensures pageLookup == old(pageLookup)
    {
      if !hasPlaywright {
        hasPlaywright := true;
      }
    }

    /**
     * `start`, from the parsed configuration on: the browser lookup becomes the browser
     * ids, the page lookup is assigned the context ids and then the page ids, and the
     * context lookup is never assigned. Playwright is started, and `create_browser` then
     * reads `browser` from the parser, which only has `browsers`: an `AttributeError`
     * before any object is created.
     */
    method Start(parsed: PParsed) returns (r: Result<Unit>)
      modifies this
      ensures r == Err(AttributeError)
      ensures parser == Some(parsed) && hasPlaywright
      ensures browserLookup == parsed.browserIds && pageLookup == parsed.pageIds
      ensures contextLookup == old(contextLookup)
      ensures browser == old(browser) && context == old(context) && page == old(page)
    {
      parser := Some(parsed);
      browserLookup := parsed.browserIds;
      pageLookup := parsed.contextIds;
      pageLookup := parsed.pageIds;
      CreateAsyncPlaywright();
      r := Err(AttributeError);
    }

    /**
     * `stop`: stopping needs a started Playwright (`None.stop()` is an
     * `AttributeError`); then every map and lookup set is emptied.
     */
    method Stop() returns (r: Result<Unit>)
      modifies this
      ensures r.Err? <==> !old(hasPlaywright)
      ensures r.Err? ==> r.error == AttributeError && unchanged(this)
      ensures r.Ok? ==>
        && Valid() && !hasPlaywright && parser.None?
        && browser == map[] && context == map[] && page == map[]
        && browserLookup == {} && contextLookup == {} && pageLookup == {}
    {
      if !hasPlaywright {
        r := Err(AttributeError);
        return;
      }
      hasPlaywright := false;
      parser := None;
      browser, context, page := map[], map[], map[];
      browserLookup, contextLookup, pageLookup := {}, {}, {};
      r := Ok(Unit);
    }

    /**
     * `add_browser`: a no-op for a known id. Otherwise the id is listed first; the
     * browser is then launched from the named browser type, which fails with an
     * `AttributeError` when Playwright is not started or the name is not a browser type.
     */
    method AddBrowser(core: string, id: string, options: map<string, Value>) returns (r: Result<Unit>)
      modifies this
      ensures id in old(browserLookup) ==> r.Ok? && unchanged(this)
      ensures id !in old(browserLookup) ==>
        && browserLookup == old(browserLookup) + {id}
        && (r.Err? <==> !hasPlaywright || core !in BrowserTypes)
        && (r.Err? ==> r.error == AttributeError && browser == old(browser))
        && (r.Ok? ==> browser == old(browser)[id := Browser(core)])
      ensures old(Valid()) ==> Valid()
      ensures hasPlaywright == old(hasPlaywright) && parser == old(parser)
      ensures context == old(context) && contextLookup == old(contextLookup)
      ensures page == old(page) && pageLookup == old(pageLookup)
    {
      if id in browserLookup {
        return Ok(Unit);
      }
      browserLookup := browserLookup + {id};
      if !hasPlaywright || core !in BrowserTypes {
        return Err(AttributeError);
      }
      browser := browser[id := Browser(core)];
      r := Ok(Unit);
    }

    /**
     * `remove_browser`: a no-op for an unknown id. Otherwise the id is unlisted and the
     * browser popped, a `KeyError` when it was listed but never stored. Its contexts and
     * pages stay.
     */
    method RemoveBrowser(id: string) returns (r: Result<Unit>)
      modifies this
      ensures id !in old(browserLookup) ==> r.Ok? && unchanged(this)
      ensures id in old(browserLookup) ==>
        && browserLookup == old(browserLookup) - {id}
        && (r.Err? <==> id !in old(browser))
        && (r.Err? ==> r.error == KeyError)
        && browser == old(browser) - {id}
      ensures old(Valid()) ==> Valid()
      ensures hasPlaywright == old(hasPlaywright) && parser == old(parser)
      ensures context == old(context) && contextLookup == old(contextLookup)
      ensures page == old(page) && pageLookup == old(pageLookup)
    {
      if id !in browserLookup {
        return Ok(Unit);
      }
      browserLookup := browserLookup - {id};
      if id !in browser {
        return Err(KeyError);
      }
      browser := browser - {id};
      r := Ok(Unit);
    }

    /**
     * `add_context`: acts only for a new context id under a listed browser id; the id
     * is listed, and the context is made from the stored browser, a `KeyError` when the
     * browser is listed but not stored.
     */
    method AddContext(browserId: string, id: string, options: map<string, Value>) returns (r: Result<Unit>)
      modifies this
      ensures !(id !in old(contextLookup) && browserId in old(browserLookup)) ==> r.Ok? && unchanged(this)
      ensures id !in old(contextLookup) && browserId in old(browserLookup) ==>
        && contextLookup == old(contextLookup) + {id}
        && (r.Err? <==> browserId !in browser)
        && (r.Err? ==> r.error == KeyError && context == old(context))
        && (r.Ok? ==> context == old(context)[id := Context(browserId)])
      ensures old(Valid()) ==> Valid()
      ensures hasPlaywright == old(hasPlaywright) && parser == old(parser)
      ensures browser == old(browser) && browserLookup == old(browserLookup)
      ensures page == old(page) && pageLookup == old(pageLookup)
    {
      if id in contextLookup || browserId !in browserLookup {
        return Ok(Unit);
      }
      contextLookup := contextLookup + {id};
      if browserId !in browser {
        return Err(KeyError);
      }
      context := context[id := Context(browserId)];
      r := Ok(Unit);
    }

    /** `remove_context`: unlists and pops a listed id; a `KeyError` if it was never stored. */
    method RemoveContext(id: string) returns (r: Result<Unit>)
      modifies this
      ensures id !in old(contextLookup) ==> r.Ok? && unchanged(this)
      ensures id in old(contextLookup) ==>
        && contextLookup == old(contextLookup) - {id}
        && (r.Err? <==> id !in old(context))
        && (r.Err? ==> r.error == KeyError)
        && context == old(context) - {id}
      ensures old(Valid()) ==> Valid()
      ensures hasPlaywright == old(hasPlaywright) && parser == old(parser)
      ensures browser == old(browser) && browserLookup == old(browserLookup)
      ensures page == old(page) && pageLookup == old(pageLookup)
    {
      if id !in contextLookup {
        return Ok(Unit);
      }
      contextLookup := contextLookup - {id};
      if id !in context {
        return Err(KeyError);
      }
      context := context - {id};
      r := Ok(Unit);
    }

    /**
     * `add_page`: acts only under a listed context id for a new page id; the page is
     * made from the stored context, a `KeyError` when that context is not stored.
     */
    method AddPage(contextId: string, id: string) returns (r: Result<Unit>)
      modifies this
      ensures !(contextId in old(contextLookup) && id !in old(pageLookup)) ==> r.Ok? && unchanged(this)
      ensures contextId in old(contextLookup) && id !in old(pageLookup) ==>
        && pageLookup == old(pageLookup) + {id}
        && (r.Err? <==> contextId !in context)
        && (r.Err? ==> r.error == KeyError && page == old(page))
        && (r.Ok? ==> page == old(page)[id := Page(contextId)])
      ensures old(Valid()) ==> Valid()
      ensures hasPlaywright == old(hasPlaywright) && parser == old(parser)
      ensures browser == old(browser) && browserLookup == old(browserLookup)
      ensures context == old(context) && contextLookup == old(contextLookup)
    {
      if contextId !in contextLookup || id in pageLookup {
        return Ok(Unit);
      }
      pageLookup := pageLookup + {id};
      if contextId !in context {
        return Err(KeyError);
      }
      page := page[id := Page(contextId)];
      r := Ok(Unit);
    }

    /** `remove_page`: unlists and pops a listed id; a `KeyError` if it was never stored. */
    method RemovePage(id: string) returns (r: Result<Unit>)
      modifies this
      ensures id !in old(pageLookup) ==> r.Ok? && unchanged(this)
      ensures id in old(pageLookup) ==>
        && pageLookup == old(pageLookup) - {id}
        && (r.Err? <==> id !in old(page))
        && (r.Err? ==> r.error == KeyError)
        && page == old(page) - {id}
      ensures old(Valid()) ==> Valid()
      ensures hasPlaywright == old(hasPlaywright) && parser == old(parser)
      ensures browser == old(browser) && browserLookup == old(browserLookup)
      ensures context == old(context) && contextLookup == old(contextLookup)
    {
      if id !in pageLookup {
        return Ok(Unit);
      }
      pageLookup := pageLookup - {id};
      if id !in page {
        return Err(KeyError);
      }
      page := page - {id};
      r := Ok(Unit);
    }
  }

  /**
   * Building a browser, a context and a page on a new client and then removing the
   * browser leaves the context and the page in place, still naming their parents.
   */
  method RemovingBrowserKeepsDescendants() returns (contexts: map<string, Resource>, pages: map<string, Resource>)
    ensures contexts == map["c1" := Context("b1")]
    ensures pages == map["p1" := Page("c1")]
  {
    var c := new PlaywrightClient();
    c.CreateAsyncPlaywright();
    var r1 := c.AddBrowser("chromium", "b1", map[]);
    var r2 := c.AddContext("b1", "c1", map[]);
    var r3 := c.AddPage("c1", "p1");
    var r4 := c.RemoveBrowser("b1");
    contexts, pages := c.context, c.page;
  }

  /** A context cannot be added under a browser that was never listed. */
  method ContextNeedsListedBrowser() returns (contexts: map<string, Resource>, lookup: set<string>)
    ensures contexts == map[] && lookup == {}
  {
    var c := new PlaywrightClient();
    c.CreateAsyncPlaywright();
    var r := c.AddContext("b1", "c1", map[]);
    contexts, lookup := c.context, c.contextLookup;
  }

  /** An httpx client, made from its options. */
  datatype AsyncClient = AsyncClient(options: map<string, Value>)

  class HttpxClient {
    var parser: Option<HParsed>
    var clientLookup: set<string>
    var client: map<string, AsyncClient>

    /** Every stored client is listed in the lookup set. */
    predicate Valid()
      reads this
    {
      client.Keys <= clientLookup
    }

    constructor ()
      ensures Valid() && parser.None? && clientLookup == {} && client == map[]
    {
      parser := None;
      clientLookup := {};
      client := map[];
    }

    /** `add`: for a new id, lists it and stores a client made from the options; otherwise nothing. */
    method Add(id: string, options: map<string, Value>)
      modifies this
      ensures id in old(clientLookup) ==> unchanged(this)
      ensures id !in old(clientLookup) ==>
        clientLookup == old(clientLookup) + {id} && client == old(client)[id := AsyncClient(options)]
      ensures parser == old(parser)
      ensures old(Valid()) ==> Valid()
    {
      if id !in clientLookup {
        clientLookup := clientLookup + {id};
        client := client[id := AsyncClient(options)];
      }
    }

    /** `remove`: unlists and pops a listed id, a `KeyError` if it is not stored; otherwise nothing. */
    method Remove(id: string) returns (r: Result<Unit>)
      modifies this
      ensures id !in old(clientLookup) ==> r.Ok? && unchanged(this)
      ensures id in old(clientLookup) ==>
        && clientLookup == old(clientLookup) - {id}
        && (r.Err? <==> id !in old(client))
        && (r.Err? ==> r.error == KeyError)
        && client == old(client) - {id}
      ensures parser == old(parser)
      ensures old(Valid()) ==> Valid()
    {
      if id !in clientLookup {
        return Ok(Unit);
      }
      clientLookup := clientLookup - {id};
      if id !in client {
        return Err(KeyError);
      }
      client := client - {id};
      r := Ok(Unit);
    }

    /**
     * `start`, from the parsed configuration on: the lookup becomes the configured
     * ids, and `create_async_client` then reads `client` from the parser, which only
     * has `clients`: an `AttributeError` before any client is made.
     */
    method Start(parsed: HParsed) returns (r: Result<Unit>)
      modifies this
      ensures r == Err(AttributeError)
      ensures parser == Some(parsed) && clientLookup == parsed.clientIds && client == old(client)
    {
      parser := Some(parsed);
      clientLookup := parsed.clientIds;
      r := Err(AttributeError);
    }

    /** `stop`: every client is dropped; the lookup set is left as it was. */
    method Stop()
      modifies this
      ensures client == map[] && clientLookup == old(clientLookup) && parser == old(parser)
      ensures Valid()
    {
      client := map[];
    }
  }

  /**
   * Because `stop` keeps the lookup set, an id added before a stop can neither be added
   * again (a no-op) nor removed (the pop is a `KeyError`).
   */
  method StopStrandsIds(id: string, options: map<string, Value>) returns (stored: bool, removal: Result<Unit>)
    ensures !stored && removal == Err(KeyError)
  {
    var c := new HttpxClient();
    c.Add(id, options);
    c.Stop();
    c.Add(id, options);
    stored := id in c.client;
    removal := c.Remove(id);
  }
}
