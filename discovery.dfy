/** The AI discovery panel of app/components/Discovery.tsx: the search
    handler that guards blank cravings and brackets the recommendation call
    with the loading flag, and the choice of link and title for each source. */
module Discovery {
  import opened Js
  import opened Types
  import GeminiService

  const DefaultTitle := "View Details"

  // ---------------------------------------------------------------------------
  // Link and title selection

  function WebUri(c: Chunk): Option<string> {
    if c.web.Some? then c.web.value.uri else None
  }

  function SearchEntryUrl(c: Chunk): Option<string> {
    if c.searchEntry.Some? then c.searchEntry.value.url else None
  }

  function MapsUri(c: Chunk): Option<string> {
    if c.maps.Some? then c.maps.value.uri else None
  }

  function WebTitle(c: Chunk): Option<string> {
    if c.web.Some? then c.web.value.title else None
  }

  function SearchEntryTitle(c: Chunk): Option<string> {
    if c.searchEntry.Some? then c.searchEntry.value.title else None
  }

  function MapsTitle(c: Chunk): Option<string> {
    if c.maps.Some? then c.maps.value.title else None
  }

  /** `a || b || c` on optional strings, with a falsy result read as no value. */
  function FirstTruthy(a: Option<string>, b: Option<string>, c: Option<string>): (r: Option<string>)
    ensures r.Some? ==> r.value != ""
    ensures Truthy(a) ==> r == a
    ensures !Truthy(a) && Truthy(b) ==> r == b
    ensures !Truthy(a) && !Truthy(b) && Truthy(c) ==> r == c
    ensures r.None? <==> !Truthy(a) && !Truthy(b) && !Truthy(c)
  {
    if Truthy(a) then a else if Truthy(b) then b else if Truthy(c) then c else None
  }

  /** `chunk.web?.uri || chunk.search_entry?.url || chunk.maps?.uri`, `None` when falsy. */
  function Link(c: Chunk): Option<string> {
    FirstTruthy(WebUri(c), SearchEntryUrl(c), MapsUri(c))
  }

  /** `chunk.web?.title || chunk.search_entry?.title || chunk.maps?.title || 'View Details'` */
  function Title(c: Chunk): (t: string)
    ensures t != ""
  {
    var r := FirstTruthy(WebTitle(c), SearchEntryTitle(c), MapsTitle(c));
    if r.Some? then r.value else DefaultTitle
  }

  /** The link is the first non-empty of the web, search-entry and maps links, in that order. */
  lemma LinkPrecedence(c: Chunk)
    ensures Truthy(WebUri(c)) ==> Link(c) == WebUri(c)
    ensures !Truthy(WebUri(c)) && Truthy(SearchEntryUrl(c)) ==> Link(c) == SearchEntryUrl(c)
    ensures !Truthy(WebUri(c)) && !Truthy(SearchEntryUrl(c)) ==> Link(c) == (if Truthy(MapsUri(c)) then MapsUri(c) else None)
  {
  }

  /** The title follows the same order and falls back to 'View Details'. */
  lemma TitlePrecedence(c: Chunk)
    ensures Truthy(WebTitle(c)) ==> Title(c) == WebTitle(c).value
    ensures !Truthy(WebTitle(c)) && Truthy(SearchEntryTitle(c)) ==> Title(c) == SearchEntryTitle(c).value
    ensures !Truthy(WebTitle(c)) && !Truthy(SearchEntryTitle(c)) && Truthy(MapsTitle(c)) ==> Title(c) == MapsTitle(c).value
    ensures !Truthy(WebTitle(c)) && !Truthy(SearchEntryTitle(c)) && !Truthy(MapsTitle(c)) ==> Title(c) == DefaultTitle
  {
  }

  /** A rendered source entry: its "Source N" number, its target and its title. */
  datatype SourceLink = SourceLink(number: nat, href: string, title: string)

  /** The entries rendered for `sources[i..]`; sources without a link render nothing. */
  function LinksFrom(sources: seq<Chunk>, i: nat): (r: seq<SourceLink>)
    requires i <= |sources|
    ensures |r| <= |sources| - i
    decreases |sources| - i
  {
    if i == |sources| then []
    else
      var rest := LinksFrom(sources, i + 1);
      match Link(sources[i])
      case None => rest
      case Some(href) => [SourceLink(i + 1, href, Title(sources[i]))] + rest
  }

  /** Entry `n` shows the link and title of source `n - 1`, which has a link. */
  predicate EntryOf(sources: seq<Chunk>, e: SourceLink) {
    && 0 < e.number <= |sources|
    && Link(sources[e.number - 1]) == Some(e.href)
    && e.title == Title(sources[e.number - 1])
  }

  /** Every entry comes from a linked source at or after `i`. */
  lemma {:induction false} LinksSound(sources: seq<Chunk>, i: nat)
    requires i <= |sources|
    ensures forall k :: 0 <= k < |LinksFrom(sources, i)| ==>
      i < LinksFrom(sources, i)[k].number && EntryOf(sources, LinksFrom(sources, i)[k])
    decreases |sources| - i
  {
    if i < |sources| {
      LinksSound(sources, i + 1);
      var rest, r := LinksFrom(sources, i + 1), LinksFrom(sources, i);
      match Link(sources[i])
      case None =>
        assert r == rest;
      case Some(href) =>
        assert r == [SourceLink(i + 1, href, Title(sources[i]))] + rest;
        assert EntryOf(sources, r[0]);
        forall k | 0 < k < |r| ensures i < r[k].number && EntryOf(sources, r[k]) {
          assert r[k] == rest[k - 1];
        }
    }
  }

  /** Entries keep the order of their sources. */
  lemma {:induction false} LinksOrdered(sources: seq<Chunk>, i: nat)
    requires i <= |sources|
    ensures forall a, b :: 0 <= a < b < |LinksFrom(sources, i)| ==>
      LinksFrom(sources, i)[a].number < LinksFrom(sources, i)[b].number
    decreases |sources| - i
  {
    if i < |sources| {
      LinksOrdered(sources, i + 1);
      var rest, r := LinksFrom(sources, i + 1), LinksFrom(sources, i);
      match Link(sources[i])
      case None =>
        assert r == rest;
      case Some(href) =>
        assert r == [SourceLink(i + 1, href, Title(sources[i]))] + rest;
        LinksSound(sources, i + 1);
        forall a, b | 0 <= a < b < |r| ensures r[a].number < r[b].number {
          assert r[b] == rest[b - 1];
          if a > 0 {
            assert r[a] == rest[a - 1];
          }
        }
    }
  }

  /** Every source with a link gives an entry numbered by its index plus one. */
  lemma {:induction false} LinksComplete(sources: seq<Chunk>, i: nat, j: nat)
    requires i <= j < |sources| && Link(sources[j]).Some?
    ensures exists k :: 0 <= k < |LinksFrom(sources, i)| && LinksFrom(sources, i)[k].number == j + 1
    decreases j - i
  {
    var r := LinksFrom(sources, i);
    if i == j {
      var rest := LinksFrom(sources, i + 1);
      assert r == [SourceLink(i + 1, Link(sources[i]).value, Title(sources[i]))] + rest;
      assert r[0].number == j + 1;
    } else {
      LinksComplete(sources, i + 1, j);
      var rest := LinksFrom(sources, i + 1);
      var k :| 0 <= k < |rest| && rest[k].number == j + 1;
      if Link(sources[i]).Some? {
        assert r == [SourceLink(i + 1, Link(sources[i]).value, Title(sources[i]))] + rest;
        assert r[k + 1] == rest[k];
      } else {
        assert r == rest;
      }
    }
  }

  /** A source without a link leaves one entry fewer than there are sources. */
  lemma {:induction false} LinksDropUnlinked(sources: seq<Chunk>, i: nat, j: nat)
    requires i <= j < |sources| && Link(sources[j]).None?
    ensures |LinksFrom(sources, i)| < |sources| - i
    decreases j - i
  {
    if i < j {
      LinksDropUnlinked(sources, i + 1, j);
    }
  }

  /** `results.sources.map(...)`: labels are the original index plus one, so
      numbering skips the dropped sources. */
  function SourceLinks(sources: seq<Chunk>): seq<SourceLink> {
    LinksFrom(sources, 0)
  }

  /** "Found N Matches" counts every source, with or without a link. */
  function MatchesCount(results: RecommendationResult): nat {
    |results.sources|
  }

  /** Every entry comes from a linked source, every linked source gives one entry
      in order, and an unlinked source makes the entries fewer than the count shown. */
  lemma SourceLinksAgainstCount(results: RecommendationResult)
    ensures var links := SourceLinks(results.sources);
      && |links| <= MatchesCount(results)
      && (forall k :: 0 <= k < |links| ==> EntryOf(results.sources, links[k]))
      && (forall a, b :: 0 <= a < b < |links| ==> links[a].number < links[b].number)
      && (forall j :: 0 <= j < |results.sources| && Link(results.sources[j]).Some? ==>
            exists k :: 0 <= k < |links| && links[k].number == j + 1)
      && ((exists j :: 0 <= j < |results.sources| && Link(results.sources[j]).None?) ==>
            |links| < MatchesCount(results))
  {
    var s := results.sources;
    var links := LinksFrom(s, 0);
    LinksSound(s, 0);
    LinksOrdered(s, 0);
    forall j | 0 <= j < |s| && Link(s[j]).Some?
      ensures exists k :: 0 <= k < |links| && links[k].number == j + 1
    {
      LinksComplete(s, 0, j);
    }
    if j :| 0 <= j < |s| && Link(s[j]).None? {
      LinksDropUnlinked(s, 0, j);
    }
  }

  /** The ungrounded service never returns sources, so the panel always shows
      "Found 0 Matches" and no source entries after a successful search. */
  lemma UngroundedResultsHaveNoSources(respond: nat -> GeminiService.Response, maxRetries: int)
    requires GeminiService.Run(respond, maxRetries).outcome.Returned?
    ensures MatchesCount(GeminiService.Run(respond, maxRetries).outcome.result) == 0
    ensures SourceLinks(GeminiService.Run(respond, maxRetries).outcome.result.sources) == []
  {
    GeminiService.RunClosedForm(respond, maxRetries);
  }

  // ---------------------------------------------------------------------------
  // The search handler

  class DiscoveryView {
    var craving: string
    var loading: bool
    var results: Option<RecommendationResult>

    constructor ()
      ensures craving == "" && !loading && results == None
    {
      craving, loading, results := "", false, None;
    }

    /** The input's `onChange`. */
    method SetCraving(text: string)
      modifies this
      ensures craving == text && loading == old(loading) && results == old(results)
    {
      craving := text;
    }

    /** `handleSearch` up to the awaited call: a blank craving changes nothing;
        otherwise the panel shows the spinner and drops the previous results. */
    method BeginSearch() returns (started: bool)
      modifies this
      ensures started == !IsBlank(old(craving))
      ensures !started ==> craving == old(craving) && loading == old(loading) && results == old(results)
      ensures started ==> craving == old(craving) && loading && results == None
    {
      if IsBlank(craving) {
        return false;
      }
      loading := true;
      results := None;
      started := true;
    }

    /** `handleSearch` after the call settles: results are kept on success, a
        thrown error is swallowed, and the spinner stops either way. */
    method CompleteSearch(outcome: Outcome)
      modifies this
      ensures !loading && craving == old(craving)
      ensures results == if outcome.Returned? then Some(outcome.result) else old(results)
    {
      if outcome.Returned? {
        results := Some(outcome.result);
      }
      loading := false;
    }

    /** The whole handler around `findRestaurantsByCraving(craving, location)`
        with the default number of attempts: the requests sent are those of the
        typed craving and the given location, and a blank craving sends none. */
    method HandleSearch(
      location: Option<GeminiService.Location>,
      respond: nat -> GeminiService.Response, show: real -> string)
      returns (started: bool, requests: seq<GeminiService.Request>)
      modifies this
      ensures started == !IsBlank(old(craving))
      ensures !started ==>
        && requests == []
        && craving == old(craving) && loading == old(loading) && results == old(results)
      ensures started ==>
        var run := GeminiService.Run(respond, GeminiService.DefaultMaxRetries);
        && |requests| == run.calls
        && (forall r :: r in requests ==>
              r == GeminiService.Request(GeminiService.Model, GeminiService.Prompt(old(craving), location, show)))
        && craving == old(craving) && !loading
        && results == (if run.outcome.Returned? then Some(run.outcome.result) else None)
    {
      started := BeginSearch();
      requests := [];
      if started {
        var outcome, sent, _ := GeminiService.FindRestaurantsByCraving(
          craving, location, GeminiService.DefaultMaxRetries, respond, show);
        requests := sent;
        CompleteSearch(outcome);
      }
    }
  }
}
