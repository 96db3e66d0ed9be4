/** The word-playlist page: the state it holds (the typed words, the accumulated search
    batches, the selection, the playlist draft, the session token) and the handlers that
    change it. Remote calls are recorded in a call trace; their outcomes are inputs. */
module Home {
  import opened Js
  import opened Words
  import opened Search
  import opened Selection
  import opened SpotifyService

  /** A remote call the page makes, in the order it is made. */
  datatype Call =
    | SearchTracks(query: string)
    | GetMe
    | CreatePlaylistCall(request: Request)
    | AddTracksCall(request: Request)

  /** The playlist name box and the optional description. */
  datatype Draft = Draft(name: string, desc: Option<string>)

  /** How the create-playlist request ended: the promise chain rejected (network error or
      a body that is not JSON), or it produced a JSON body whose `id` may be missing. */
  datatype CreateOutcome = CreateRejected | CreateAnswered(id: Option<string>)

  /** Where an invocation of `createPlaylist` stopped: one of the three early returns, the
      `TypeError` of reading `.id` from an undefined user or playlist, or after starting
      the add call. */
  datatype Stage =
    | SelectionGuard
    | SessionGuard
    | NameGuard
    | UserIdThrew
    | PlaylistIdThrew
    | AddStarted

  datatype Run = Run(stage: Stage, calls: seq<Call>)

  /** One search call per query, in query order. */
  function SearchCalls(queries: seq<string>): (r: seq<Call>)
    ensures |r| == |queries|
  {
    seq(|queries|, i requires 0 <= i < |queries| => SearchTracks(queries[i]))
  }

  lemma SearchCallsSnoc(queries: seq<string>, q: string)
    ensures SearchCalls(queries + [q]) == SearchCalls(queries) + [SearchTracks(q)]
  {
  }

  /** The searches one submission of `input` issues. */
  function SubmitCalls(input: string): seq<Call> {
    SearchCalls(Tokenize(input))
  }

  /** One invocation of `createPlaylist` with `selected` as `allSelected`, `session` as
      `session?.accessToken`, the draft, and the outcomes of the user lookup (the user id,
      or a failure) and of the create request. The helper's token is the session token,
      since the session guard has passed before any request is built. */
  function Workflow(selected: seq<string>, session: Option<string>, draft: Draft,
                    me: Option<string>, created: CreateOutcome): Run
  {
    if |selected| == 0 then Run(SelectionGuard, [])
    else if session.None? then Run(SessionGuard, [])
    else if |draft.name| == 0 then Run(NameGuard, [])
    else match me
      case None => Run(UserIdThrew, [GetMe])
      case Some(userId) =>
        var create := CreatePlaylistRequest(session, CreateParams(draft.name, draft.desc, userId, None));
        match created
        case CreateRejected => Run(PlaylistIdThrew, [GetMe, CreatePlaylistCall(create)])
        case CreateAnswered(id) =>
          match AddTracksResult(session, AddParams(id, selected))
          case Sent(add) => Run(AddStarted, [GetMe, CreatePlaylistCall(create), AddTracksCall(add)])
          case NotSent(_) => Run(AddStarted, [GetMe, CreatePlaylistCall(create)])
  }

  /** An empty submission searches nothing; otherwise there is one search per comma-separated
      piece, k + 1 for k commas, the i-th for the i-th piece trimmed. */
  lemma SubmitSearches(input: string)
    ensures input == [] ==> SubmitCalls(input) == []
    ensures input != [] ==> |SubmitCalls(input)| == Count(input, ',') + 1
    ensures input != [] ==> forall i :: 0 <= i < |SubmitCalls(input)| ==>
      SubmitCalls(input)[i] == SearchTracks(Trim(Split(input, ',')[i]))
  {
  }

  /** No remote call is made exactly when one of the three guards stops the invocation:
      nothing selected, no session token (whatever the fallback token), or an empty name. */
  lemma NoCallsIffGuarded(selected: seq<string>, session: Option<string>, draft: Draft,
                          me: Option<string>, created: CreateOutcome)
    ensures Workflow(selected, session, draft, me, created).calls == [] <==>
      (selected == [] || session.None? || draft.name == [])
  {
  }

  /** The guards run in order: the first that fails decides where the invocation stops. */
  lemma GuardOrder(selected: seq<string>, session: Option<string>, draft: Draft,
                   me: Option<string>, created: CreateOutcome)
    ensures selected == [] ==> Workflow(selected, session, draft, me, created).stage == SelectionGuard
    ensures selected != [] && session.None? ==>
      Workflow(selected, session, draft, me, created).stage == SessionGuard
    ensures selected != [] && session.Some? && draft.name == [] ==>
      Workflow(selected, session, draft, me, created).stage == NameGuard
  {
  }

  /** The calls come in order: the user lookup first, then create, then add, each at most
      once; a failed lookup stops before create, a rejected create before add. */
  lemma CallOrder(selected: seq<string>, session: Option<string>, draft: Draft,
                  me: Option<string>, created: CreateOutcome)
    ensures var calls := Workflow(selected, session, draft, me, created).calls;
      && |calls| <= 3
      && (calls != [] ==> calls[0] == GetMe)
      && (forall i :: 0 <= i < |calls| ==> calls[i].CreatePlaylistCall? ==> i == 1)
      && (forall i :: 0 <= i < |calls| ==> calls[i].AddTracksCall? ==> i == 2)
      && (me.None? ==> |calls| <= 1)
      && (created.CreateRejected? ==> |calls| <= 2)
  {
  }

  /** Once the guards pass and the user is known, create is sent for that user with the
      draft's name and description, private, with the session token. */
  lemma CreateUsesDraftAndUser(selected: seq<string>, session: Option<string>, draft: Draft,
                               userId: string, created: CreateOutcome)
    requires selected != [] && session.Some? && draft.name != []
    ensures var calls := Workflow(selected, session, draft, Some(userId), created).calls;
      && |calls| >= 2
      && calls[1].CreatePlaylistCall?
      && CreateUrlUser(calls[1].request.url) == Some(userId)
      && calls[1].request.body == CreateBody(draft.name, draft.desc, false)
      && calls[1].request.authorization == Bearer(session)
  {
  }

  /** Once create has answered, add is always sent (the helper's token guard cannot fire),
      to the id the answer carried (the text "undefined" when it had none) with the whole
      selection, in order, at position 0. */
  lemma AddUsesCreatedIdAndSelection(selected: seq<string>, session: Option<string>,
                                     draft: Draft, userId: string, id: Option<string>)
    requires selected != [] && session.Some? && draft.name != []
    ensures var run := Workflow(selected, session, draft, Some(userId), CreateAnswered(id));
      && run.stage == AddStarted
      && |run.calls| == 3
      && run.calls[2].AddTracksCall?
      && run.calls[2].request.body == AddBody(selected, 0)
      && AddUrlPlaylist(run.calls[2].request.url) == Some(TemplateText(id))
  {
  }

  /** The page's state. */
  class HomePage {
    const selection: SelectionStore
    /** The `token` prop: the fallback token fetched at build time, if any. */
    const staticToken: Option<string>
    /** `session?.accessToken`. */
    var session: Option<string>
    var playlistWord: string
    var songs: seq<Batch>
    var draft: Draft
    var calls: seq<Call>

    ghost predicate Valid()
      reads this, selection
    {
      selection.Valid()
    }

    /** The page as first rendered: no words, no batches, nothing selected, an empty name
      with an empty description, and no call made yet. */
    constructor (staticToken: Option<string>, session: Option<string>)
      ensures Valid() && fresh(selection)
      ensures this.staticToken == staticToken && this.session == session
      ensures playlistWord == [] && songs == [] && draft == Draft("", Some("")) && calls == []
      ensures selection.flags == map[] && selection.order == []
    {
      this.staticToken := staticToken;
      this.session := session;
      selection := new SelectionStore();
      playlistWord := "";
      songs := [];
      draft := Draft("", Some(""));
      calls := [];
    }

    /** `session?.accessToken ?? token`: the token the page's clients are given. */
    function AccessToken(): (r: Option<string>)
      reads this
      ensures session.Some? ==> r == session
      ensures r.None? <==> session.None? && staticToken.None?
    {
      if session.Some? then session else staticToken
    }

    /** `handleSubmit`: nothing for empty words; otherwise one search per token, in order. */
    method Submit()
      modifies this
      ensures calls == old(calls) + SubmitCalls(playlistWord)
      ensures playlistWord == old(playlistWord) && songs == old(songs) && draft == old(draft)
      ensures session == old(session)
    {
      if |playlistWord| == 0 {
        return;
      }
      var chunks := Tokenize(playlistWord);
      SearchEach(chunks);
    }

    /** `chunks.map(track => getTracks(track))`: starts one search per query, in order. */
    method SearchEach(chunks: seq<string>)
      modifies this
      ensures calls == old(calls) + SearchCalls(chunks)
      ensures playlistWord == old(playlistWord) && songs == old(songs) && draft == old(draft)
      ensures session == old(session)
    {
      for i := 0 to |chunks|
        invariant calls == old(calls) + SearchCalls(chunks[..i])
        invariant playlistWord == old(playlistWord) && songs == old(songs) && draft == old(draft)
        invariant session == old(session)
      {
        assert chunks[..i + 1] == chunks[..i] + [chunks[i]];
        SearchCallsSnoc(chunks[..i], chunks[i]);
        calls := calls + [SearchTracks(chunks[i])];
      }
      assert chunks[..|chunks|] == chunks;
    }

    /** The completion handler of one search in `getTracks`: a result is appended, tagged
      with its query; a failure changes nothing. */
    method Receive(a: Arrival)
      modifies this
      ensures songs == old(songs) + Accepted([a])
      ensures calls == old(calls) && playlistWord == old(playlistWord) && draft == old(draft)
      ensures session == old(session)
    {
      match a.outcome {
        case Found(items) =>
          songs := songs + [Batch(a.query, items)];
        case SearchFailed =>
      }
    }

    /** Search completions handled in the order they arrive. */
    method ReceiveAll(arrivals: seq<Arrival>)
      modifies this
      ensures songs == old(songs) + Accepted(arrivals)
      ensures calls == old(calls) && playlistWord == old(playlistWord) && draft == old(draft)
      ensures session == old(session)
    {
      for i := 0 to |arrivals|
        invariant songs == old(songs) + Accepted(arrivals[..i])
        invariant calls == old(calls) && playlistWord == old(playlistWord) && draft == old(draft)
        invariant session == old(session)
      {
        Receive(arrivals[i]);
        assert arrivals[..i + 1] == arrivals[..i] + [arrivals[i]];
        AcceptedAppend(arrivals[..i], [arrivals[i]]);
      }
      assert arrivals[..|arrivals|] == arrivals;
    }

    /** `toggleOption`: flips one uri in the selection. */
    method ToggleOption(uri: string)
      requires Valid()
      modifies selection
      ensures Valid()
      ensures selection.flags == Toggled(old(selection.flags), uri)
      ensures selection.order == ToggledOrder(old(selection.order), uri)
    {
      selection.Toggle(uri);
    }

    /** `createPlaylist` followed by `addSelectedToPlaylist`, with the outcomes of the user
      lookup and of the create request given. */
    method CreatePlaylist(me: Option<string>, created: CreateOutcome) returns (stage: Stage)
      requires Valid()
      modifies this
      ensures Valid()
      ensures var run := Workflow(selection.AllSelected(), session, draft, me, created);
        stage == run.stage && calls == old(calls) + run.calls
      ensures session.None? ==> calls == old(calls)
      ensures playlistWord == old(playlistWord) && songs == old(songs) && draft == old(draft)
      ensures session == old(session)
    {
      var api := new Spotify();
      var token := AccessToken();
      if token.Some? {
        api.SetAccessToken(token.value);
      }
      var all := selection.AllSelected();
      if |all| == 0 {
        return SelectionGuard;
      }
      if session.None? {
        return SessionGuard;
      }
      if |draft.name| == 0 {
        return NameGuard;
      }
      calls := calls + [GetMe];
      if me.None? {
        return UserIdThrew;
      }
      var request := api.CreatePlaylist(CreateParams(draft.name, draft.desc, me.value, None));
      calls := calls + [CreatePlaylistCall(request)];
      if created.CreateRejected? {
        return PlaylistIdThrew;
      }
      var added := api.AddTracksToPlaylist(AddParams(created.id, all));
      if added.Sent? {
        calls := calls + [AddTracksCall(added.request)];
      }
      return AddStarted;
    }
  }

  /** Two words typed (such as "sun, moon", see `SunMoon`): two searches, in word order. */
  method TwoWordSearch(words: string, first: string, second: string)
    requires Tokenize(words) == [first, second]
  {
    var page := new HomePage(None, None);
    page.playlistWord := words;
    page.Submit();
    assert page.calls == [SearchTracks(first), SearchTracks(second)];
  }

  /** One single found for each of two words, the answers arriving in either order: two
      batches, in arrival order. */
  method TwoAnswers(first: string, second: string, a: Track, b: Track, inOrder: bool) {
    var page := new HomePage(None, None);
    var arrivals := if inOrder then [Arrival(first, Found([a])), Arrival(second, Found([b]))]
                    else [Arrival(second, Found([b])), Arrival(first, Found([a]))];
    page.ReceiveAll(arrivals);
    AllFoundAccepted(arrivals);
    assert inOrder ==> page.songs == [Batch(first, [a]), Batch(second, [b])];
    assert !inOrder ==> page.songs == [Batch(second, [b]), Batch(first, [a])];
  }

  /** Two tracks ticked and the playlist named (such as "Celestial"): the user lookup, one
      create call with that name and one add call with both uris, in the order they were
      ticked, at position 0. */
  method TwoTrackPlaylist(a: string, b: string, name: string, token: string, userId: string,
                          id: string)
    requires a != b && name != []
  {
    var page := new HomePage(None, Some(token));
    page.ToggleOption(a);
    page.ToggleOption(b);
    var selected := page.selection.AllSelected();
    assert selected == [a, b];

    page.draft := Draft(name, None);
    var stage := page.CreatePlaylist(Some(userId), CreateAnswered(Some(id)));
    AddUsesCreatedIdAndSelection(selected, Some(token), page.draft, userId, Some(id));
    CreateUsesDraftAndUser(selected, Some(token), page.draft, userId, CreateAnswered(Some(id)));
    var run := Workflow(selected, Some(token), page.draft, Some(userId), CreateAnswered(Some(id)));
    assert stage == run.stage == AddStarted;
    assert page.calls == run.calls;
    assert |run.calls| == 3 && run.calls[0] == GetMe;
    assert run.calls[1].request.body.name == name;
    assert run.calls[2].request.body == AddBody([a, b], 0);
  }
}
