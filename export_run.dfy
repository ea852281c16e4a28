/**
 * The course of an export run of doGetEULALicenseInfringements
 * (els_cli.go): which URLs it requests, what each request returns, which
 * records it gathers, and what it writes once the pagination ends.
 */
module ExportRun {
  import opened Wrappers
  import opened Errors
  import opened RequestRetry
  import opened Infringements
  import opened Reports
  import opened Calls

  /** getInfringementPage for a complete page URL: a GET without a body, then the page checks. */
  function FetchPage(env: Env, maxTries: int, transport: Transport, url: string): Result<InfringementsPage, Error>
  {
    PageFrom(Send("GET", url, None, env, maxTries, transport).reply, env.unmarshal)
  }

  /**
   * What a page fetch can give: a URL http.NewRequest rejects fails with its
   * error; with no attempt allowed the nil response is dereferenced; a page
   * comes only from an attempt that got a 200 response.
   */
  lemma FetchPageOutcome(env: Env, maxTries: int, transport: Transport, url: string)
    ensures env.newRequest("GET", url).Some? ==>
      FetchPage(env, maxTries, transport, url) == Failure(env.newRequest("GET", url).value)
    ensures env.newRequest("GET", url).None? && maxTries <= 0 ==>
      FetchPage(env, maxTries, transport, url) == Failure(NilDereference)
    ensures FetchPage(env, maxTries, transport, url).Success? ==>
      env.newRequest("GET", url).None? && 0 < maxTries &&
      exists t :: 0 <= t < maxTries && transport(t).Answered? && transport(t).rep.statusCode == StatusOK
  {
    if FetchPage(env, maxTries, transport, url).Success? {
      var o := Retry(Answers(transport, maxTries));
      assert transport(o.tries - 1).Answered?;
    }
  }

  /**
   * A page fetch panics exactly when doCall returned a nil response with a
   * nil error, or a 200 response with a nil body.
   */
  lemma FetchPanicsOnlyOnNil(env: Env, maxTries: int, transport: Transport, url: string)
    ensures var reply := Send("GET", url, None, env, maxTries, transport).reply;
      FetchPage(env, maxTries, transport, url) == Failure(NilDereference) <==>
        reply == Reply(None, None) ||
        (reply.err.None? && reply.rep.Some? && reply.rep.value.statusCode == StatusOK && reply.rep.value.body.None?)
  {
    if env.newRequest("GET", url).None? && maxTries > 0 {
      RetryReplyShape(Answers(transport, maxTries));
    }
  }

  /** Every page requested over the transport of request n is the last one. */
  ghost predicate EndsAt(env: Env, maxTries: int, network: nat -> Transport, n: nat)
  {
    forall url :: Final(FetchPage(env, maxTries, network(n), url))
  }

  /** What a run's requests return: page k comes from urls[k] over network(k). */
  ghost function Fetches(env: Env, maxTries: int, network: nat -> Transport, urls: seq<string>): seq<Result<InfringementsPage, Error>>
  {
    if urls == [] then []
    else Fetches(env, maxTries, network, urls[..|urls| - 1]) + [FetchPage(env, maxTries, network(|urls| - 1), urls[|urls| - 1])]
  }

  /**
   * The URLs of a run: the first page is the listing path itself, each
   * later one carries the cursor of the page before it.
   */
  ghost predicate FollowsCursors(path: string, fetched: seq<Result<InfringementsPage, Error>>, urls: seq<string>)
  {
    && |urls| == |fetched|
    && (|urls| > 0 ==> urls[0] == path)
    && forall k :: 0 <= k < |urls| - 1 ==> fetched[k].Success? && urls[k + 1] == PageURL(path, fetched[k].value.cursor)
  }

  /** The records of the successful fetches of a run, in order. */
  ghost function RecordsOf(fetched: seq<Result<InfringementsPage, Error>>): seq<seq<string>>
  {
    if fetched == [] then []
    else
      var last := fetched[|fetched| - 1];
      RecordsOf(fetched[..|fetched| - 1]) + (if last.Success? then PageRecords(last.value) else [])
  }

  /** The cursor the next request of a run carries: none before the first page. */
  ghost function NextCursor(fetched: seq<Result<InfringementsPage, Error>>): string
  {
    if fetched == [] || fetched[|fetched| - 1].Failure? then "" else fetched[|fetched| - 1].value.cursor
  }

  /**
   * A run still going: it requested the URLs the cursors named, each page
   * is what its request returned, none was the last, and the records are
   * the header followed by those of every page so far.
   */
  ghost predicate Progress(env: Env, maxTries: int, network: nat -> Transport, path: string,
                           fetched: seq<Result<InfringementsPage, Error>>, urls: seq<string>, records: seq<seq<string>>)
  {
    && FollowsCursors(path, fetched, urls)
    && fetched == Fetches(env, maxTries, network, urls)
    && (forall k :: 0 <= k < |fetched| ==> !Final(fetched[k]))
    && records == [Header] + RecordsOf(fetched)
  }

  lemma FetchesNext(env: Env, maxTries: int, network: nat -> Transport, urls: seq<string>, url: string)
    ensures Fetches(env, maxTries, network, urls + [url]) ==
      Fetches(env, maxTries, network, urls) + [FetchPage(env, maxTries, network(|urls|), url)]
  {
    assert (urls + [url])[..|urls|] == urls;
  }

  /** The records after one more fetch, behind any leading rows. */
  lemma RecordsOfNext(head: seq<seq<string>>, fetched: seq<Result<InfringementsPage, Error>>, page: Result<InfringementsPage, Error>)
    ensures head + RecordsOf(fetched + [page]) == head + RecordsOf(fetched) + (if page.Success? then PageRecords(page.value) else [])
  {
    assert (fetched + [page])[..|fetched|] == fetched;
  }

  /** A run that follows the cursors still does after requesting the URL its last cursor names. */
  lemma FollowsNextCursor(path: string, fetched: seq<Result<InfringementsPage, Error>>, urls: seq<string>,
                          page: Result<InfringementsPage, Error>)
    requires FollowsCursors(path, fetched, urls)
    requires forall k :: 0 <= k < |fetched| ==> !Final(fetched[k])
    ensures FollowsCursors(path, fetched + [page], urls + [PageURL(path, NextCursor(fetched))])
  {
    var fetched', urls' := fetched + [page], urls + [PageURL(path, NextCursor(fetched))];
    forall k | 0 <= k < |urls'| - 1
      ensures fetched'[k].Success? && urls'[k + 1] == PageURL(path, fetched'[k].value.cursor)
    {
      assert fetched'[k] == fetched[k];
      assert !Final(fetched[k]);
    }
  }

  /** When every fetch succeeded, the records of the run are those the export writes. */
  lemma {:induction false} RecordsOfPages(fetched: seq<Result<InfringementsPage, Error>>)
    requires forall k :: 0 <= k < |fetched| ==> fetched[k].Success?
    ensures RecordsOf(fetched) == PagesRecords(Pages(fetched))
    decreases |fetched|
  {
    if fetched != [] {
      var front := fetched[..|fetched| - 1];
      RecordsOfPages(front);
      assert Pages(fetched)[..|fetched| - 1] == Pages(front);
    }
  }

  /**
   * One more fetch of a run: it is requested at the URL the last cursor
   * names, it is what that request returned, and no earlier fetch was the
   * last one.
   */
  lemma RunGrows(env: Env, maxTries: int, network: nat -> Transport, path: string,
                 fetched: seq<Result<InfringementsPage, Error>>, urls: seq<string>, records: seq<seq<string>>,
                 page: Result<InfringementsPage, Error>)
    requires Progress(env, maxTries, network, path, fetched, urls, records)
    requires page == FetchPage(env, maxTries, network(|fetched|), PageURL(path, NextCursor(fetched)))
    ensures FollowsCursors(path, fetched + [page], urls + [PageURL(path, NextCursor(fetched))])
    ensures fetched + [page] == Fetches(env, maxTries, network, urls + [PageURL(path, NextCursor(fetched))])
    ensures forall k :: 0 <= k < |fetched + [page]| - 1 ==> !Final((fetched + [page])[k])
  {
    FollowsNextCursor(path, fetched, urls, page);
    FetchesNext(env, maxTries, network, urls, PageURL(path, NextCursor(fetched)));
    var fetched' := fetched + [page];
    forall k | 0 <= k < |fetched'| - 1 ensures !Final(fetched'[k]) {
      assert fetched'[k] == fetched[k];
    }
  }

  /**
   * One more page of a run: its records follow the others, and it either
   * keeps the run going or, with an empty cursor, ends it with the CSV
   * document Export describes.
   */
  lemma RunStep(env: Env, maxTries: int, network: nat -> Transport, path: string,
                fetched: seq<Result<InfringementsPage, Error>>, urls: seq<string>, records: seq<seq<string>>,
                page: Result<InfringementsPage, Error>, records': seq<seq<string>>)
    requires Progress(env, maxTries, network, path, fetched, urls, records)
    requires page == FetchPage(env, maxTries, network(|fetched|), PageURL(path, NextCursor(fetched)))
    requires page.Success? && records' == records + PageRecords(page.value)
    ensures NextCursor(fetched + [page]) == page.value.cursor
    ensures page.value.cursor != "" ==>
      Progress(env, maxTries, network, path, fetched + [page], urls + [PageURL(path, NextCursor(fetched))], records')
    ensures page.value.cursor == "" ==>
      && FollowsCursors(path, fetched + [page], urls + [PageURL(path, NextCursor(fetched))])
      && fetched + [page] == Fetches(env, maxTries, network, urls + [PageURL(path, NextCursor(fetched))])
      && Trace(fetched + [page])
      && Export(fetched + [page]) == Success(records')
  {
    var fetched' := fetched + [page];
    RunGrows(env, maxTries, network, path, fetched, urls, records, page);
    RecordsOfNext([Header], fetched, page);
    assert records' == [Header] + RecordsOf(fetched');
    if page.value.cursor == "" {
      forall k | 0 <= k < |fetched'| ensures fetched'[k].Success? {
        if k < |fetched'| - 1 {
          assert !Final(fetched'[k]);
        }
      }
      RecordsOfPages(fetched');
      assert Trace(fetched');
    }
  }

  /** A failed page ends the run: Export then holds only that error. */
  lemma RunFails(env: Env, maxTries: int, network: nat -> Transport, path: string,
                 fetched: seq<Result<InfringementsPage, Error>>, urls: seq<string>, records: seq<seq<string>>,
                 page: Result<InfringementsPage, Error>)
    requires Progress(env, maxTries, network, path, fetched, urls, records)
    requires page == FetchPage(env, maxTries, network(|fetched|), PageURL(path, NextCursor(fetched)))
    requires page.Failure?
    ensures FollowsCursors(path, fetched + [page], urls + [PageURL(path, NextCursor(fetched))])
    ensures fetched + [page] == Fetches(env, maxTries, network, urls + [PageURL(path, NextCursor(fetched))])
    ensures Trace(fetched + [page]) && Export(fetched + [page]) == Failure(page.error)
  {
    RunGrows(env, maxTries, network, path, fetched, urls, records, page);
  }
}
