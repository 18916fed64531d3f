/** The user-session slice of the client store: the state record, the eight actions its
    reducer handles (four direct setters and the fulfilled/rejected outcomes of the
    register and login requests), and the one navigation the reducer performs.

    `Reduce` is the reducer as a pure function on state records; `UserStore` is the
    reducer as the TypeScript slice `user-slice.ts` writes it, a state object whose
    fields each case assigns in place, with the router's history kept as a log of
    navigation targets. */
module UserSlice {

  // ---------------------------------------------------------------------------
  // Data model
  // ---------------------------------------------------------------------------

  /** The form fields a validation error can be reported for. */
  datatype ErrorKey = Email | Password | Username

  /** A field-error mapping: a key that is absent means that field is valid. */
  type UserErrors = map<ErrorKey, string>

  /** The session state: identity, session token and the last reported field errors. */
  datatype UserState = UserState(id: string, token: string, userName: string, errors: UserErrors)

  /** The state the store starts with. */
  const InitialState: UserState := UserState("", "", "", map[])

  /** Payload of a successful registration. */
  datatype Registered = Registered(id: string, userName: string)

  /** Payload of a successful login; the reducer never reads `success`. */
  datatype LoggedIn = LoggedIn(success: bool, token: string, id: string)

  /** The actions the slice's reducer handles. The request outcomes carry the payload
      that the corresponding request delivers. */
  datatype Action =
    | SetId(newId: string)
    | SetToken(newToken: string)
    | SetUsername(newUserName: string)
    | SetErrors(newErrors: UserErrors)
    | RegisterFulfilled(registered: Registered)
    | RegisterRejected(registerErrors: UserErrors)
    | LoginFulfilled(loggedIn: LoggedIn)
    | LoginRejected(loginErrors: UserErrors)
  {
    /** True of the actions whose payload is a field-error mapping. */
    predicate CarriesErrors() {
      SetErrors? || RegisterRejected? || LoginRejected?
    }

    /** The field-error mapping an error-carrying action delivers. */
    function ErrorsPayload(): UserErrors
      requires CarriesErrors()
    {
      match this
      case SetErrors(e) => e
      case RegisterRejected(e) => e
      case LoginRejected(e) => e
    }

    /** True of the outcomes of a successful request. */
    predicate Fulfilled() {
      RegisterFulfilled? || LoginFulfilled?
    }
  }

  /** The four fields of the session state. */
  datatype Field = IdField | TokenField | UserNameField | ErrorsField

  /** The fields the reducer case for `a` assigns, read off the case bodies. */
  function Writes(a: Action): set<Field> {
    match a
    case SetId(_) => {IdField}
    case SetToken(_) => {TokenField}
    case SetUsername(_) => {UserNameField}
    case SetErrors(_) => {ErrorsField}
    case RegisterFulfilled(_) => {IdField, UserNameField, ErrorsField}
    case RegisterRejected(_) => {ErrorsField}
    case LoginFulfilled(_) => {TokenField, IdField, ErrorsField}
    case LoginRejected(_) => {ErrorsField}
  }

  /** `s` and `t` hold the same value in field `f`. */
  predicate SameField(s: UserState, t: UserState, f: Field) {
    match f
    case IdField => s.id == t.id
    case TokenField => s.token == t.token
    case UserNameField => s.userName == t.userName
    case ErrorsField => s.errors == t.errors
  }

  /** Two states that agree on every field are the same state. */
  lemma SameFieldsSameState(s: UserState, t: UserState)
    requires forall f :: SameField(s, t, f)
    ensures s == t
  {
    assert SameField(s, t, IdField) && SameField(s, t, TokenField);
    assert SameField(s, t, UserNameField) && SameField(s, t, ErrorsField);
  }

  // ---------------------------------------------------------------------------
  // The reducer
  // ---------------------------------------------------------------------------

  /** The state after the reducer handles `a` in state `s`. */
  function Reduce(s: UserState, a: Action): (r: UserState)
    // every field the case does not assign keeps its value
    ensures forall f :: f !in Writes(a) ==> SameField(s, r, f)
    // each setter stores its payload in its field
    ensures a.SetId? ==> r.id == a.newId
    ensures a.SetToken? ==> r.token == a.newToken
    ensures a.SetUsername? ==> r.userName == a.newUserName
    // an error payload replaces the errors wholesale: a key it lacks is gone afterwards
    ensures a.CarriesErrors() ==> r.errors == a.ErrorsPayload()
    // a successful request takes the identity from its payload and clears the errors
    ensures a.RegisterFulfilled? ==> r.id == a.registered.id && r.userName == a.registered.userName
    ensures a.LoginFulfilled? ==> r.token == a.loggedIn.token && r.id == a.loggedIn.id
    ensures a.Fulfilled() ==> r.errors == map[]
  {
    match a
    case SetId(x) => s.(id := x)
    case SetToken(x) => s.(token := x)
    case SetUsername(x) => s.(userName := x)
    case SetErrors(e) => s.(errors := e)
    case RegisterFulfilled(p) => s.(id := p.id, userName := p.userName, errors := map[])
    case RegisterRejected(e) => s.(errors := e)
    case LoginFulfilled(p) => s.(token := p.token, id := p.id, errors := map[])
    case LoginRejected(e) => s.(errors := e)
  }

  /** The value a case stores in a field it assigns depends on the payload alone. */
  lemma ReduceWritesIgnoreState(s: UserState, t: UserState, a: Action)
    ensures forall f :: f in Writes(a) ==> SameField(Reduce(s, a), Reduce(t, a), f)
  {
  }

  /** Handling the same action twice leaves the state it leaves after once. */
  lemma ReduceIdempotent(s: UserState, a: Action)
    ensures Reduce(Reduce(s, a), a) == Reduce(s, a)
  {
  }

  /** A successful login ignores the payload's `success` flag. */
  lemma LoginIgnoresSuccess(s: UserState, p: LoggedIn)
    ensures Reduce(s, LoginFulfilled(p)) == Reduce(s, LoginFulfilled(p.(success := !p.success)))
  {
  }

  // ---------------------------------------------------------------------------
  // The navigation effect
  // ---------------------------------------------------------------------------

  /** The route a successful login sends the router to. */
  const Dashboard: string := "/dashboard"

  /** The targets the reducer case for `a` pushes onto the router's history. */
  function Navigation(a: Action): (r: seq<string>)
    ensures |r| == (if a.LoginFulfilled? then 1 else 0)
    ensures forall i :: 0 <= i < |r| ==> r[i] == Dashboard
  {
    if a.LoginFulfilled? then [Dashboard] else []
  }

  // ---------------------------------------------------------------------------
  // Sequences of actions
  // ---------------------------------------------------------------------------

  /** The state after the reducer handles `acts` in order, starting in `s`. */
  function Run(s: UserState, acts: seq<Action>): UserState
    decreases |acts|
  {
    if acts == [] then s else Run(Reduce(s, acts[0]), acts[1..])
  }

  /** All navigation targets pushed while `acts` are handled in order. */
  function NavigationLog(acts: seq<Action>): seq<string>
    decreases |acts|
  {
    if acts == [] then [] else Navigation(acts[0]) + NavigationLog(acts[1..])
  }

  /** The number of successful logins in `acts`. */
  function CountLogins(acts: seq<Action>): nat
    decreases |acts|
  {
    if acts == [] then 0 else (if acts[0].LoginFulfilled? then 1 else 0) + CountLogins(acts[1..])
  }

  /** Some action of `acts` assigns field `f`. */
  predicate Touches(acts: seq<Action>, f: Field) {
    exists k :: 0 <= k < |acts| && f in Writes(acts[k])
  }

  /** Handling one more action continues from the state the earlier ones left. */
  lemma {:induction false} RunSnoc(s: UserState, acts: seq<Action>, a: Action)
    ensures Run(s, acts + [a]) == Reduce(Run(s, acts), a)
    decreases |acts|
  {
    if acts != [] {
      assert (acts + [a])[1..] == acts[1..] + [a];
      RunSnoc(Reduce(s, acts[0]), acts[1..], a);
    }
  }

  /** Handling one more action appends that action's targets to the log. */
  lemma {:induction false} NavigationLogSnoc(acts: seq<Action>, a: Action)
    ensures NavigationLog(acts + [a]) == NavigationLog(acts) + Navigation(a)
    decreases |acts|
  {
    if acts == [] {
      assert acts + [a] == [a];
      assert NavigationLog([a]) == Navigation(a) + NavigationLog([]);
    } else {
      assert (acts + [a])[0] == acts[0];
      assert (acts + [a])[1..] == acts[1..] + [a];
      NavigationLogSnoc(acts[1..], a);
    }
  }

  /** The router is sent to the dashboard exactly once per successful login, and
      nowhere else. */
  lemma {:induction false} NavigationOncePerLogin(acts: seq<Action>)
    ensures |NavigationLog(acts)| == CountLogins(acts)
    ensures forall i :: 0 <= i < |NavigationLog(acts)| ==> NavigationLog(acts)[i] == Dashboard
    decreases |acts|
  {
    if acts != [] {
      NavigationOncePerLogin(acts[1..]);
      var head, tail := Navigation(acts[0]), NavigationLog(acts[1..]);
      assert NavigationLog(acts) == head + tail;
      forall i | 0 <= i < |head + tail| ensures (head + tail)[i] == Dashboard {
        if i >= |head| {
          assert (head + tail)[i] == tail[i - |head|];
        }
      }
    }
  }

  /** A field that no action of `acts` assigns keeps its value across all of them. */
  lemma {:induction false} FieldUntouched(s: UserState, acts: seq<Action>, f: Field)
    requires !Touches(acts, f)
    ensures SameField(s, Run(s, acts), f)
    decreases |acts|
  {
    if acts != [] {
      assert f !in Writes(acts[0]);
      assert !Touches(acts[1..], f) by {
        forall k | 0 <= k < |acts[1..]| ensures f !in Writes(acts[1..][k]) {
          assert acts[1..][k] == acts[k + 1];
        }
      }
      FieldUntouched(Reduce(s, acts[0]), acts[1..], f);
    }
  }

  /** The errors after a sequence of actions are exactly what the last action that
      assigns them stored: a payload is never merged with earlier errors. */
  lemma {:induction false} ErrorsFromLastWriter(s: UserState, acts: seq<Action>, j: nat)
    requires j < |acts| && ErrorsField in Writes(acts[j])
    requires forall k :: j < k < |acts| ==> ErrorsField !in Writes(acts[k])
    ensures acts[j].Fulfilled() ==> Run(s, acts).errors == map[]
    ensures acts[j].CarriesErrors() ==> Run(s, acts).errors == acts[j].ErrorsPayload()
    decreases |acts|
  {
    var rest := acts[1..];
    if j == 0 {
      assert !Touches(rest, ErrorsField) by {
        forall k | 0 <= k < |rest| ensures ErrorsField !in Writes(rest[k]) {
          assert rest[k] == acts[k + 1];
        }
      }
      FieldUntouched(Reduce(s, acts[0]), rest, ErrorsField);
    } else {
      assert rest[j - 1] == acts[j];
      forall k | j - 1 < k < |rest| ensures ErrorsField !in Writes(rest[k]) {
        assert rest[k] == acts[k + 1];
      }
      ErrorsFromLastWriter(Reduce(s, acts[0]), rest, j - 1);
    }
  }

  /** Right after any successful register or login, whatever came before, the errors
      are empty. */
  lemma ErrorsClearedAfterFulfilled(s: UserState, acts: seq<Action>, i: nat)
    requires i < |acts| && acts[i].Fulfilled()
    ensures Run(s, acts[..i + 1]).errors == map[]
  {
    assert acts[..i + 1] == acts[..i] + [acts[i]];
    RunSnoc(s, acts[..i], acts[i]);
  }

  /** The state after a sequence of actions depends on the starting state only in the
      fields the sequence never assigns. */
  lemma {:induction false} RunDependsOnUntouched(t: UserState, u: UserState, acts: seq<Action>)
    requires forall f :: !Touches(acts, f) ==> SameField(t, u, f)
    ensures Run(t, acts) == Run(u, acts)
    decreases |acts|
  {
    if acts == [] {
      SameFieldsSameState(t, u);
    } else {
      var a, rest := acts[0], acts[1..];
      ReduceWritesIgnoreState(t, u, a);
      forall f | !Touches(rest, f) ensures SameField(Reduce(t, a), Reduce(u, a), f) {
        if f !in Writes(a) {
          assert !Touches(acts, f) by {
            forall k | 0 <= k < |acts| ensures f !in Writes(acts[k]) {
              if k > 0 {
                assert acts[k] == rest[k - 1];
              }
            }
          }
        }
      }
      RunDependsOnUntouched(Reduce(t, a), Reduce(u, a), rest);
    }
  }

  /** Replaying a whole sequence of actions a second time leaves the state record
      unchanged, because every case only assigns fields from its payload. (The
      navigation log is not part of the record: a replay pushes `/dashboard` again
      once per successful login in the sequence.) */
  lemma ReplayIdempotent(s: UserState, acts: seq<Action>)
    ensures Run(Run(s, acts), acts) == Run(s, acts)
  {
    forall f | !Touches(acts, f) ensures SameField(Run(s, acts), s, f) {
      FieldUntouched(s, acts, f);
    }
    RunDependsOnUntouched(Run(s, acts), s, acts);
  }

  // ---------------------------------------------------------------------------
  // The store as the TypeScript slice `user-slice.ts` writes it: fields assigned in place
  // ---------------------------------------------------------------------------

  /** The slice's state object, updated in place by each reducer case, together with
      the router's history as the list of targets pushed onto it. */
  class UserStore {
    var id: string
    var token: string
    var userName: string
    var errors: UserErrors
    /** Targets pushed onto the router's history, oldest first. */
    var navigation: seq<string>

    /** The session state held by the fields. */
    function State(): UserState
      reads this
    {
      UserState(id, token, userName, errors)
    }

    /** The store as created: empty identity, no errors, nothing navigated. */
    constructor ()
      ensures id == "" && token == "" && userName == "" && errors == map[]
      ensures State() == InitialState
      ensures navigation == []
    {
      id, token, userName, errors := "", "", "", map[];
      navigation := [];
    }

    method SetId(payload: string)
      modifies this
      ensures id == payload
      ensures token == old(token) && userName == old(userName) && errors == old(errors)
      ensures navigation == old(navigation)
      ensures State() == Reduce(old(State()), Action.SetId(payload))
    {
      id := payload;
    }

    method SetToken(payload: string)
      modifies this
      ensures token == payload
      ensures id == old(id) && userName == old(userName) && errors == old(errors)
      ensures navigation == old(navigation)
      ensures State() == Reduce(old(State()), Action.SetToken(payload))
    {
      token := payload;
    }

    method SetUsername(payload: string)
      modifies this
      ensures userName == payload
      ensures id == old(id) && token == old(token) && errors == old(errors)
      ensures navigation == old(navigation)
      ensures State() == Reduce(old(State()), Action.SetUsername(payload))
    {
      userName := payload;
    }

    method SetErrors(payload: UserErrors)
      modifies this
      ensures errors == payload
      ensures id == old(id) && token == old(token) && userName == old(userName)
      ensures navigation == old(navigation)
      ensures State() == Reduce(old(State()), Action.SetErrors(payload))
    {
      errors := payload;
    }

    method RegisterFulfilled(payload: Registered)
      modifies this
      ensures id == payload.id && userName == payload.userName && errors == map[]
      ensures token == old(token)
      ensures navigation == old(navigation)
      ensures State() == Reduce(old(State()), Action.RegisterFulfilled(payload))
    {
      id := payload.id;
      userName := payload.userName;
      errors := map[];
    }

    method RegisterRejected(payload: UserErrors)
      modifies this
      ensures errors == payload
      ensures id == old(id) && token == old(token) && userName == old(userName)
      ensures navigation == old(navigation)
      ensures State() == Reduce(old(State()), Action.RegisterRejected(payload))
    {
      errors := payload;
    }

    method LoginFulfilled(payload: LoggedIn)
      modifies this
      ensures token == payload.token && id == payload.id && errors == map[]
      ensures userName == old(userName)
      ensures navigation == old(navigation) + [Dashboard]
      ensures State() == Reduce(old(State()), Action.LoginFulfilled(payload))
    {
      token := payload.token;
      id := payload.id;
      errors := map[];
      navigation := navigation + [Dashboard];
    }

    method LoginRejected(payload: UserErrors)
      modifies this
      ensures errors == payload
      ensures id == old(id) && token == old(token) && userName == old(userName)
      ensures navigation == old(navigation)
      ensures State() == Reduce(old(State()), Action.LoginRejected(payload))
    {
      errors := payload;
    }

    /** Hands `a` to the reducer case that handles it. */
    method Dispatch(a: Action)
      modifies this
      ensures State() == Reduce(old(State()), a)
      ensures navigation == old(navigation) + Navigation(a)
    {
      match a
      case SetId(x) => SetId(x);
      case SetToken(x) => SetToken(x);
      case SetUsername(x) => SetUsername(x);
      case SetErrors(e) => SetErrors(e);
      case RegisterFulfilled(p) => RegisterFulfilled(p);
      case RegisterRejected(e) => RegisterRejected(e);
      case LoginFulfilled(p) => LoginFulfilled(p);
      case LoginRejected(e) => LoginRejected(e);
    }

    /** Dispatches `acts` one after another, as the application does over time. The
        store ends in the state the fold `Run` gives and has pushed exactly the
        targets `NavigationLog` lists. */
    method DispatchAll(acts: seq<Action>)
      modifies this
      ensures State() == Run(old(State()), acts)
      ensures navigation == old(navigation) + NavigationLog(acts)
    {
      var i := 0;
      while i < |acts|
        invariant 0 <= i <= |acts|
        invariant State() == Run(old(State()), acts[..i])
        invariant navigation == old(navigation) + NavigationLog(acts[..i])
      {
        assert acts[..i + 1] == acts[..i] + [acts[i]];
        RunSnoc(old(State()), acts[..i], acts[i]);
        NavigationLogSnoc(acts[..i], acts[i]);
        Dispatch(acts[i]);
        i := i + 1;
      }
      assert acts[..i] == acts;
    }
  }

  /** A rejected registration in a fresh store records the reported field error and
      leaves the identity empty. */
  method RegisterRejectedScenario() {
    var store := new UserStore();
    store.Dispatch(RegisterRejected(map[Email := "invalid email"]));
    assert store.errors[Email] == "invalid email";
    assert store.id == "" && store.navigation == [];
  }
}
