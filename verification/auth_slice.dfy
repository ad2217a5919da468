/** The `auth` slice of the Redux store: the session credentials and the three reducers that change them. */
module AuthSlice {
  import opened Wrappers

  /** The slice state. `refetchToken` is the refresh credential; every field is nullable. */
  datatype Session = Session(token: Option<string>, refetchToken: Option<string>, userName: Option<string>)

  /** The three actions the slice exports; a payload of `null`/`undefined` is `None`. */
  datatype Action = SetToken(payload: Option<string>) | SetUser(payload: Option<string>) | LogOut

  /** The state the store starts in: nobody is logged in. */
  const Initial: Session := Session(None, None, None)

  /** One reducer step. Each field is written by exactly one kind of action (two for `token`). */
  function Reduce(s: Session, a: Action): (t: Session)
    ensures t.token == (if a.SetToken? then a.payload else if a.LogOut? then None else s.token)
    ensures t.refetchToken == (if a.LogOut? then None else s.refetchToken)
    ensures t.userName == (if a.SetUser? then a.payload else s.userName)
  {
    match a
    case SetToken(p) => s.(token := p)
    case SetUser(p) => s.(userName := p)
    case LogOut => s.(token := None, refetchToken := None)
  }

  /** No action writes a non-null `refetchToken`: it is either kept or cleared. */
  lemma NoActionWritesRefetchToken(s: Session, a: Action)
    ensures Reduce(s, a).refetchToken != None ==> Reduce(s, a).refetchToken == s.refetchToken
  {
  }

  /** Dispatching `acts` in order, first to last. */
  function Run(s: Session, acts: seq<Action>): Session
    decreases |acts|
  {
    if acts == [] then s else Run(Reduce(s, acts[0]), acts[1..])
  }

  lemma {:induction false} RunAppend(s: Session, xs: seq<Action>, ys: seq<Action>)
    ensures Run(s, xs + ys) == Run(Run(s, xs), ys)
    decreases |xs|
  {
    if xs == [] {
      assert xs + ys == ys;
    } else {
      assert (xs + ys)[0] == xs[0];
      assert (xs + ys)[1..] == xs[1..] + ys;
      RunAppend(Reduce(s, xs[0]), xs[1..], ys);
    }
  }

  lemma RunSnoc(s: Session, acts: seq<Action>, a: Action)
    ensures Run(s, acts + [a]) == Reduce(Run(s, acts), a)
  {
    RunAppend(s, acts, [a]);
  }

  /** Reference reading of the token after `acts`, scanning from the end: the payload of
      the last `SetToken`, unless a `LogOut` comes after it; `start` if neither occurs. */
  function LatestToken(start: Option<string>, acts: seq<Action>): Option<string>
    decreases |acts|
  {
    if acts == [] then start
    else match acts[|acts| - 1]
      case SetToken(p) => p
      case LogOut => None
      case SetUser(_) => LatestToken(start, acts[..|acts| - 1])
  }

  /** Reference reading of the user name after `acts`: the payload of the last `SetUser`. */
  function LatestUser(start: Option<string>, acts: seq<Action>): Option<string>
    decreases |acts|
  {
    if acts == [] then start
    else match acts[|acts| - 1]
      case SetUser(p) => p
      case _ => LatestUser(start, acts[..|acts| - 1])
  }

  /** Any sequence of actions leaves the state described by the reference readings:
      the refresh credential survives only if no `LogOut` was dispatched. */
  lemma {:induction false} RunCharacterised(s: Session, acts: seq<Action>)
    ensures Run(s, acts) == Session(LatestToken(s.token, acts),
                                    if LogOut in acts then None else s.refetchToken,
                                    LatestUser(s.userName, acts))
    decreases |acts|
  {
    if acts != [] {
      var init, a := acts[..|acts| - 1], acts[|acts| - 1];
      assert acts == init + [a];
      RunSnoc(s, init, a);
      RunCharacterised(s, init);
      assert LogOut in acts <==> LogOut in init || a == LogOut;
    }
  }

  /** `logOut` twice is `logOut` once. */
  lemma LogOutIdempotent(s: Session)
    ensures Reduce(Reduce(s, LogOut), LogOut) == Reduce(s, LogOut)
  {
  }

  /** Whatever was dispatched before, a final `logOut` clears both tokens and keeps the name. */
  lemma {:induction false} LogOutClearsTokens(s: Session, acts: seq<Action>)
    ensures Run(s, acts + [LogOut]).token == None
    ensures Run(s, acts + [LogOut]).refetchToken == None
    ensures Run(s, acts + [LogOut]).userName == Run(s, acts).userName
  {
    RunSnoc(s, acts, LogOut);
  }

  /** `setToken(p)` then `logOut` leaves no access token, whatever `p` was. */
  lemma SetTokenThenLogOut(s: Session, p: Option<string>)
    ensures Run(s, [SetToken(p), LogOut]).token == None
    ensures Run(s, [SetToken(p), LogOut]).userName == s.userName
  {
    assert [SetToken(p), LogOut] == [SetToken(p)] + [LogOut];
    LogOutClearsTokens(s, [SetToken(p)]);
    assert Run(s, [SetToken(p)]) == Run(Reduce(s, SetToken(p)), []);
  }

  /** The states the store can be in after any sequence of dispatches from the initial state. */
  ghost predicate Reachable(s: Session) {
    exists acts: seq<Action> :: Run(Initial, acts) == s
  }

  /** A state is reachable exactly when its refresh credential is null: no reducer
      ever writes a non-null `refetchToken`, and any token and name can be set. */
  lemma ReachableIff(s: Session)
    ensures Reachable(s) <==> s.refetchToken == None
  {
    if Reachable(s) {
      var acts: seq<Action> :| Run(Initial, acts) == s;
      RunCharacterised(Initial, acts);
    }
    if s.refetchToken == None {
      var acts := [SetToken(s.token), SetUser(s.userName)];
      RunCharacterised(Initial, acts);
      assert acts[..1] == [SetToken(s.token)];
      assert Run(Initial, acts) == s;
    }
  }

  /** Reachability is preserved by every further sequence of dispatches. */
  lemma RunKeepsReachable(s: Session, acts: seq<Action>)
    requires Reachable(s)
    ensures Reachable(Run(s, acts))
  {
    ReachableIff(s);
    RunCharacterised(s, acts);
    ReachableIff(Run(s, acts));
  }
}
