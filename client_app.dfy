/**
 * The `App` component of the client (frontend/src/App.jsx) as a state
 * machine: its five pieces of state and the handlers that change them.
 *
 * A handler that awaits a request is split at the `await`: the part that
 * sends it, and the part that runs when it settles. Each part runs alone,
 * and other parts may run in between. The outcome of every `fetch` is an
 * input: a GET either delivers a body or throws; a POST either gets a reply
 * of any status or throws.
 */
module ClientApp {
  import opened Maybe
  import opened ClientView

  /** The value of `page`. */
  datatype Page = Login | Vote | Results

  /** What `fetch` of the tally and `response.json()` end in. */
  datatype FetchOutcome = Fetched(data: seq<Entry>) | FetchThrew

  /** What the POST of a vote ends in: any HTTP reply, or a thrown network error. */
  datatype PostOutcome = Replied | PostThrew

  /**
   * The page moves the handlers can make: stay, log in, show the results,
   * or go back from the results to the voting page.
   */
  predicate PageStep(from: Page, to: Page)
  {
    || from == to
    || (from == Login && to == Vote)
    || (from == Vote && to == Results)
    || (from == Results && to == Vote)
  }

  /** Once past the login page, no sequence of handler runs leads back to it. */
  lemma {:induction false} NeverBackToLogin(trace: seq<Page>, i: nat, j: nat)
    requires forall k :: 0 <= k < |trace| - 1 ==> PageStep(trace[k], trace[k + 1])
    requires i <= j < |trace| && trace[i] != Login
    ensures trace[j] != Login
  {
    if i < j {
      NeverBackToLogin(trace, i, j - 1);
      assert PageStep(trace[j - 1], trace[j]);
    }
  }

  /** The state of `App`. */
  class App {
    var page: Page
    var username: string
    var votes: seq<Entry>
    var hasVoted: bool
    var isLoading: bool

    /** The options this client has posted, in order. */
    ghost var posted: seq<string>
    /** How many of those POSTs have settled, and how many of them got a reply. */
    ghost var settled: nat
    ghost var answered: nat
    /** GETs of the tally sent and not yet settled. */
    ghost var pendingFetches: nat

    /**
     * Before logging in there is no name and nothing has been posted; after
     * it, the name is a non-empty trimmed string. POSTs settle at most once,
     * and the user counts as having voted exactly when one of their POSTs
     * got a reply.
     */
    ghost predicate Valid()
      reads this
    {
      && (page == Login ==> username == [] && posted == [])
      && (page != Login ==> username != [] && Trim(username) == username)
      && answered <= settled <= |posted|
      && (hasVoted <==> answered > 0)
    }

    /** The initial `useState` values: the login page, no votes, loading. */
    constructor ()
      ensures Valid()
      ensures page == Login && username == [] && votes == [] && !hasVoted && isLoading
      ensures posted == [] && settled == 0 && answered == 0 && pendingFetches == 0
    {
      page := Login;
      username := [];
      votes := [];
      hasVoted := false;
      isLoading := true;
      posted, settled, answered, pendingFetches := [], 0, 0, 0;
    }

    /**
     * The part of `fetchVotes` before its `await`, run on mount, by the
     * refresh button, after a vote and when the results are opened: loading
     * starts and the GET is sent. Nothing else changes.
     */
    method StartFetch()
      requires Valid()
      modifies this
      ensures Valid()
      ensures isLoading && pendingFetches == old(pendingFetches) + 1
      ensures page == old(page) && username == old(username) && votes == old(votes) && hasVoted == old(hasVoted)
      ensures posted == old(posted) && settled == old(settled) && answered == old(answered)
    {
      isLoading := true;
      pendingFetches := pendingFetches + 1;
    }

    /**
     * The rest of `fetchVotes`, run when the GET settles: a delivered body
     * replaces the votes, a thrown fetch keeps them, and loading is over
     * either way.
     */
    method FinishFetch(outcome: FetchOutcome)
      requires Valid() && pendingFetches > 0
      modifies this
      ensures Valid()
      ensures votes == (if outcome.Fetched? then outcome.data else old(votes))
      ensures !isLoading && pendingFetches == old(pendingFetches) - 1
      ensures page == old(page) && username == old(username) && hasVoted == old(hasVoted)
      ensures posted == old(posted) && settled == old(settled) && answered == old(answered)
    {
      if outcome.Fetched? {
        votes := outcome.data;
      }
      isLoading := false;
      pendingFetches := pendingFetches - 1;
    }

    /** `handleLogin`: records the name and moves to the voting page. */
    method HandleLogin(name: string)
      requires Valid() && page == Login
      requires name != [] && Trim(name) == name
      modifies this
      ensures Valid()
      ensures page == Vote && username == name
      ensures votes == old(votes) && hasVoted == old(hasVoted) && isLoading == old(isLoading)
      ensures PageStep(old(page), page)
      ensures posted == old(posted) && settled == old(settled) && answered == old(answered)
      ensures pendingFetches == old(pendingFetches)
    {
      username := name;
      page := Vote;
    }

    /**
     * `LoginPage.handleSubmit`, on the login page: logs in with the trimmed
     * input when it is not all white space; otherwise nothing happens.
     */
    method SubmitLogin(input: string)
      requires Valid() && page == Login
      modifies this
      ensures Valid()
      ensures LoginName(input).None? ==>
        page == Login && username == old(username)
      ensures LoginName(input).Some? ==>
        page == Vote && username == LoginName(input).value
      ensures votes == old(votes) && hasVoted == old(hasVoted) && isLoading == old(isLoading)
      ensures PageStep(old(page), page)
      ensures posted == old(posted) && settled == old(settled) && answered == old(answered)
      ensures pendingFetches == old(pendingFetches)
    {
      var name := LoginName(input);
      if name.Some? {
        HandleLogin(name.value);
      }
    }

    /**
     * The part of `handleVote` before its `await`, behind the buttons of the
     * voting page: once the user has voted nothing is sent; otherwise the
     * option is posted. `hasVoted` is not touched until the POST settles.
     */
    method SendVote(option: string) returns (sent: Option<string>)
      requires Valid() && page == Vote
      modifies this
      ensures Valid()
      ensures sent.None? <==> old(hasVoted)
      ensures sent.Some? ==> sent.value == option
      ensures posted == old(posted) + (if sent.Some? then [option] else [])
      ensures page == old(page) && username == old(username) && votes == old(votes)
      ensures hasVoted == old(hasVoted) && isLoading == old(isLoading)
      ensures settled == old(settled) && answered == old(answered) && pendingFetches == old(pendingFetches)
    {
      if hasVoted {
        return None;
      }
      sent := Some(option);
      posted := posted + [option];
    }

    /**
     * The rest of `handleVote`, run when the POST settles, on whatever page
     * is showing by then: any reply, 400 and 500 included, marks the user as
     * having voted and starts a refresh of the tally; a thrown POST changes
     * nothing. Either way the flag, once set, stays set.
     */
    method VoteSettled(post: PostOutcome)
      requires Valid() && settled < |posted|
      modifies this
      ensures Valid()
      ensures settled == old(settled) + 1 && posted == old(posted)
      ensures post.PostThrew? ==>
        hasVoted == old(hasVoted) && isLoading == old(isLoading)
        && answered == old(answered) && pendingFetches == old(pendingFetches)
      ensures post.Replied? ==>
        hasVoted && isLoading && answered == old(answered) + 1 && pendingFetches == old(pendingFetches) + 1
      ensures old(hasVoted) ==> hasVoted
      ensures page == old(page) && username == old(username) && votes == old(votes)
    {
      settled := settled + 1;
      if post.Replied? {
        hasVoted := true;
        answered := answered + 1;
        StartFetch();
      }
    }

    /**
     * `showResults`, the link of the voting page: a refresh of the tally is
     * started and the results page is shown straight away.
     */
    method ShowResults()
      requires Valid() && page == Vote
      modifies this
      ensures Valid()
      ensures page == Results && PageStep(old(page), page)
      ensures isLoading
      ensures username == old(username) && votes == old(votes) && hasVoted == old(hasVoted)
      ensures posted == old(posted) && settled == old(settled) && answered == old(answered)
      ensures pendingFetches == old(pendingFetches) + 1
    {
      StartFetch();
      page := Results;
    }

    /** The "Go back" button of the results page. */
    method GoBack()
      requires Valid() && page == Results
      modifies this
      ensures Valid()
      ensures page == Vote && PageStep(old(page), page)
      ensures username == old(username) && votes == old(votes)
      ensures hasVoted == old(hasVoted) && isLoading == old(isLoading)
      ensures posted == old(posted) && settled == old(settled) && answered == old(answered)
      ensures pendingFetches == old(pendingFetches)
    {
      page := Vote;
    }
  }

  /**
   * A session: mount, log in, vote and wait for the reply, then try to vote
   * again. The second attempt sends nothing.
   */
  method VoteAfterReply(input: string, mount: FetchOutcome, first: string, second: string, refresh: FetchOutcome)
    returns (sentFirst: Option<string>, sentSecond: Option<string>)
    requires exists i :: 0 <= i < |input| && !IsWhiteSpace(input[i])
    ensures sentFirst == Some(first) && sentSecond == None
  {
    var app := new App();
    app.StartFetch();
    app.FinishFetch(mount);
    app.SubmitLogin(input);
    sentFirst := app.SendVote(first);
    app.VoteSettled(Replied);
    app.FinishFetch(refresh);
    sentSecond := app.SendVote(second);
  }

  /**
   * A second click before the first POST has settled: `hasVoted` is still
   * false, so the guard lets it through and a second vote is posted.
   */
  method VoteBeforeReply(input: string, first: string, second: string)
    returns (sentFirst: Option<string>, sentSecond: Option<string>)
    requires exists i :: 0 <= i < |input| && !IsWhiteSpace(input[i])
    ensures sentFirst == Some(first) && sentSecond == Some(second)
  {
    var app := new App();
    app.SubmitLogin(input);
    sentFirst := app.SendVote(first);
    sentSecond := app.SendVote(second);
  }
}
