# User-session slice of the todo client

This project models the user-session store of the todo-list client
(`frontend/src/redux/user-slice.ts`). The store holds the signed-in user's
`id`, session `token` and `userName`, plus `errors`, the last field-error
mapping the backend reported for the register/login forms. Its reducer handles
eight actions:

- four direct setters: `setId`, `setToken`, `setUsername` and `setErrors`;
- the fulfilled and rejected outcomes of the `registerUser` request;
- the fulfilled and rejected outcomes of the `loginUser` request.

A successful login also pushes `/dashboard` onto the router's history.

Everything lives in the module `UserSlice` (`user_slice.dfy`), in two forms:

- `Reduce(s, a)` is the reducer as a pure function on `UserState` records.
  Its postconditions give each case's frame (the fields outside `Writes(a)`
  keep their values) and the values it stores. `Navigation(a)` is the list of
  router targets the case pushes.
- `UserStore` is the reducer as the TypeScript slice writes it. It is a class with the
  four state fields and a `navigation` log, and one method per case assigns
  those fields in place. Each method's postcondition states its whole new
  state and ties it to `Reduce`. `Dispatch` routes an action to its case.

Over sequences of actions, `Run` and `NavigationLog` fold `Reduce` and
`Navigation`. The lemmas prove the following:

- `errors` is never a merge. It is the empty map if the last action that
  assigned it was a fulfilled request, and that action's payload if it was
  `setErrors` or a rejection. If no action assigns it, it keeps its starting
  value.
- `errors` is empty right after every fulfilled register or login.
- There is exactly one dashboard navigation per successful login.
- Replaying any sequence of actions a second time leaves the state record
  unchanged. The navigation log still grows again, by one `/dashboard` per
  successful login in the sequence.

`UserStore.DispatchAll` links the class to these folds. After a store
dispatches a sequence of actions one by one, its state is `Run` of the old
state, and its log has grown by exactly `NavigationLog` of the sequence.

`RegisterRejectedScenario` is a worked example. A fresh store receives a
rejected registration reporting `email: "invalid email"`. Afterwards
`errors[Email]` is that message, `id` is still `""`, and nothing has been
navigated.

The error keys form the enumeration `ErrorKey = Email | Password | Username`.
So "errors only ever holds the keys email, password and username" is true by
typing.

## Model

| member | source | states |
|---|---|---|
| `UserSlice.Reduce` | frontend/src/redux/user-slice.ts:62-119 | Only the fields in the case's write set can change. Each setter stores its payload in its own field. An error payload replaces `errors` wholesale, so a key the payload lacks is absent afterwards. A fulfilled register sets `id` and `userName`, a fulfilled login sets `token` and `id`, and both leave `errors` empty. |
| `UserSlice.Navigation` | frontend/src/redux/user-slice.ts:109 | A successful login pushes exactly one target, `/dashboard`. Every other action pushes nothing. |
| `UserSlice.ReduceWritesIgnoreState` | frontend/src/redux/user-slice.ts:66-117 | The value a case stores in a field comes from the payload alone, whatever the prior state. |
| `UserSlice.ReduceIdempotent` | frontend/src/redux/user-slice.ts:66-117 | Handling the same action twice leaves the same state as handling it once. This includes the three identity setters. |
| `UserSlice.LoginIgnoresSuccess` | frontend/src/redux/user-slice.ts:104-108 | The state after a successful login does not depend on the payload's `success` flag. |
| `UserSlice.RunSnoc` | frontend/src/redux/user-slice.ts:62-119 | Handling one more action continues from the state the earlier actions left. |
| `UserSlice.NavigationLogSnoc` | frontend/src/redux/user-slice.ts:109 | Handling one more action appends exactly that action's targets to the navigation log. |
| `UserSlice.NavigationOncePerLogin` | frontend/src/redux/user-slice.ts:100-117 | Over any sequence of actions, the log has one entry per successful login, and every entry is `/dashboard`. |
| `UserSlice.FieldUntouched` | frontend/src/redux/user-slice.ts:66-117 | A field that no action of a sequence assigns keeps its value across the whole sequence. For example, a rejected register or login never changes `id`, `token` or `userName`. |
| `UserSlice.ErrorsFromLastWriter` | frontend/src/redux/user-slice.ts:75-117 | After any sequence that contains an errors-assigning action, `errors` is exactly what the last such action stored. That is the empty map for a fulfilled request and the payload for `setErrors` or a rejection. |
| `UserSlice.ErrorsClearedAfterFulfilled` | frontend/src/redux/user-slice.ts:83-111 | Right after any fulfilled register or login, wherever it falls in a sequence of actions, `errors` is empty. |
| `UserSlice.RunDependsOnUntouched` | frontend/src/redux/user-slice.ts:66-117 | Two starting states that agree on every field the sequence never assigns end in the same state. |
| `UserSlice.ReplayIdempotent` | frontend/src/redux/user-slice.ts:66-117 | Replaying any sequence of actions a second time leaves the state record unchanged. The navigation log is not part of it and grows again on a replay. |
| `UserSlice.UserStore.constructor` | frontend/src/redux/user-slice.ts:18-23 | The store starts with empty `id`, `token` and `userName`, an empty `errors` map and an empty navigation log. |
| `UserSlice.UserStore.SetId` | frontend/src/redux/user-slice.ts:66-68 | `id` becomes the payload. The other three fields and the log are unchanged. |
| `UserSlice.UserStore.SetToken` | frontend/src/redux/user-slice.ts:69-71 | `token` becomes the payload. The other three fields and the log are unchanged. |
| `UserSlice.UserStore.SetUsername` | frontend/src/redux/user-slice.ts:72-74 | `userName` becomes the payload. The other three fields and the log are unchanged. |
| `UserSlice.UserStore.SetErrors` | frontend/src/redux/user-slice.ts:75-77 | `errors` becomes exactly the payload, with no merge. The identity fields and the log are unchanged. |
| `UserSlice.UserStore.RegisterFulfilled` | frontend/src/redux/user-slice.ts:83-93 | `id` and `userName` come from the payload and `errors` becomes empty. `token` and the log are unchanged. |
| `UserSlice.UserStore.RegisterRejected` | frontend/src/redux/user-slice.ts:94-99 | `errors` becomes exactly the payload. `id`, `token`, `userName` and the log are unchanged. |
| `UserSlice.UserStore.LoginFulfilled` | frontend/src/redux/user-slice.ts:100-111 | `token` and `id` come from the payload and `errors` becomes empty. `userName` is unchanged, and exactly one `/dashboard` is appended to the log. |
| `UserSlice.UserStore.LoginRejected` | frontend/src/redux/user-slice.ts:112-117 | `errors` becomes exactly the payload. The identity fields and the log are unchanged. |
| `UserSlice.UserStore.Dispatch` | frontend/src/redux/user-slice.ts:62-122 | The new state is `Reduce` of the old state and the action. The log grows by exactly that action's navigation targets. |
| `UserSlice.UserStore.DispatchAll` | frontend/src/redux/user-slice.ts:62-122 | After a sequence of actions is dispatched one by one, the state is the fold `Run` of the old state over the sequence. The log has grown by exactly `NavigationLog` of the sequence. |

## Left out

- The request bodies of `registerUser` and `loginUser` (frontend/src/redux/user-slice.ts:36-60) are HTTP calls. Only the payload each one delivers is modelled, as the input of the fulfilled or rejected action.
- When a failed request has no response, reading `err.response.data` throws inside the `catch`. The request then rejects with no payload, and the rejected case would store `undefined` as `errors`. This path is not modelled: every rejected action carries a field-error mapping.
- The payloads are taken at their declared types. The unchecked cast `as UserErrors` could let other keys, or values that are not strings, reach `errors` at run time. The model cannot represent them.
- The router's `history` object is not modelled. Only the targets pushed onto it are kept, as the log `UserStore.navigation`.
- Redux Toolkit's `createSlice`/`createAsyncThunk` machinery, the action-type strings, the pending outcomes (which no case handles) and Immer's draft copying are library internals. Each case is modelled as a direct update of the state object.
- `frontend/src/components/MyTodos.tsx` is a view component, and the task-list store it reads from is not part of this model.
