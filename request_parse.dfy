/**
 * The request-client configuration parsers: `PParser` picks the browser, context and
 * page sections out of a Playwright configuration and collects their ids; `HParser`
 * collects the client ids of an httpx configuration. Both work once, in the
 * constructor, so they are modelled as functions returning the parsed record.
 */
module RequestParse {
  import opened Wrappers
  import opened PyValues

  /** One section: entry id to its configuration (opaque). */
  type Section = map<string, Value>

  /** The names of the three sections a Playwright configuration must have. */
  const BrowsersKey := "browsers"
  const ContextsKey := "contexts"
  const PagesKey := "pages"

  /** What a `PParser` holds after construction. */
  datatype PParsed = PParsed(
    browsers: Section, contexts: Section, pages: Section,
    browserIds: set<string>, contextIds: set<string>, pageIds: set<string>)

  /** What an `HParser` holds after construction. */
  datatype HParsed = HParsed(clients: Section, clientIds: set<string>)

  /** Each id set is the key set of its section. */
  predicate IdsMatch(p: PParsed) {
    p.browserIds == p.browsers.Keys && p.contextIds == p.contexts.Keys && p.pageIds == p.pages.Keys
  }

  /** `_get_items`: the three sections, or the `KeyError` of the first one missing. */
  function GetItems(args: map<string, Section>): (r: Result<(Section, Section, Section)>)
    ensures r.Ok? <==> BrowsersKey in args && ContextsKey in args && PagesKey in args
    ensures r.Err? ==> r.error == KeyError
    ensures r.Ok? ==> r.value == (args[BrowsersKey], args[ContextsKey], args[PagesKey])
  {
    if BrowsersKey !in args || ContextsKey !in args || PagesKey !in args then Err(KeyError)
    else Ok((args[BrowsersKey], args[ContextsKey], args[PagesKey]))
  }

  /** `PParser(args)`: the sections stored unchanged and their id sets. */
  function ParsePlaywright(args: map<string, Section>): (r: Result<PParsed>)
    ensures r.Ok? <==> BrowsersKey in args && ContextsKey in args && PagesKey in args
    ensures r.Err? ==> r.error == KeyError
    ensures r.Ok? ==> IdsMatch(r.value)
    ensures r.Ok? ==> r.value.browsers == args[BrowsersKey] && r.value.contexts == args[ContextsKey]
                      && r.value.pages == args[PagesKey]
  {
    var items :- GetItems(args);
    var (b, c, p) := items;
    Ok(PParsed(b, c, p, b.Keys, c.Keys, p.Keys))
  }

  /** `HParser(args)`: the configuration itself and its key set. */
  function ParseHttpx(args: Section): (r: HParsed)
    ensures r.clients == args
    ensures forall id :: id in r.clientIds <==> id in args
  {
    HParsed(args, args.Keys)
  }

  /** Sections other than the three are ignored. */
  lemma OtherSectionsIgnored(args: map<string, Section>, key: string, extra: Section)
    requires key != BrowsersKey && key != ContextsKey && key != PagesKey
    ensures ParsePlaywright(args[key := extra]) == ParsePlaywright(args)
  {
  }

  /** The parsed ids name exactly the configured entries: an id is known iff it has a configuration. */
  lemma ParsedIdsAreConfigured(args: map<string, Section>, id: string)
    requires ParsePlaywright(args).Ok?
    ensures id in ParsePlaywright(args).value.pageIds <==> id in args[PagesKey]
    ensures id in ParsePlaywright(args).value.browserIds <==> id in args[BrowsersKey]
    ensures id in ParsePlaywright(args).value.contextIds <==> id in args[ContextsKey]
  {
  }
}
