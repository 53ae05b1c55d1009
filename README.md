# Eat-n-split: a verified model of the expense-splitting state machine

This project models the logic of the single-page "eat-n-split" widget. The user keeps
a list of friends, each with a running balance: positive means the friend owes the
user, negative means the user owes the friend. The user can add a friend, select one,
and record a split bill, which moves the selected friend's balance.

The UI rendering is stripped away. What remains is four pieces of state and the
handlers that change them:

- `wrappers.dfy` (module `Wrappers`): the `Option` type for "nothing selected" and
  "nothing emitted".
- `friends.dfy` (module `Friends`): the friend record and the seed list. It holds the
  balance update a split performs on the list (`ApplyDelta`, the `friends.map` of
  `handleSplitBill`). It gives that update its partners: identifiers, occurrence
  counts and the total balance. It also holds the three-way balance status each list
  row shows (`Classify`).
- `add_friend_form.dfy` (module `AddFriendForm`): the add-friend submit rule
  (`NewFriend`) and the form's field state (class `FormAddFriend`).
- `split_bill_form.dfy` (module `SplitBillForm`): the numeric fields with their
  "empty" state, the derived friend's expense, the input guard on the user's
  expense, the submit rule (`SplitDelta`) and the form's state (class
  `FormSplitBill`).
- `controller.dfy` (module `Controller`): the App component as a class with the
  fields `friends`, `showAddFriend`, `selectedFriend` and `entered`, one method per
  handler, and `Dispatch`/`Replay` for events delivered one at a time. The same
  state as a value (`AppState`) with its transition function `Step` and its run
  over a sequence of events `Run` state what `Dispatch` and `Replay` compute, and
  the lemmas about runs are stated on them.

Modelling choices:

- Amounts are `int`; the seed balances are integers.
- A numeric form field is `Empty` (the initial empty string) or `Num(n)` (what the
  number conversion of the typed text produced). In subtraction and in the `>`
  comparison the empty string counts as 0 (`Value`). The submit guard treats both
  `Empty` and `0` as missing (`Truthy`).
- The payer selector is `Unset`, `UserPays` or `FriendPays`. Only `UserPays` selects
  the friend's-expense branch of the submit rule; the unset state falls into the
  other branch, as in the code.
- Identifiers are `Numeric` for the three seed friends and `Uuid` for friends added
  through the form. In the code, a number never equals a string under `===`.
- The fresh identifier of an added friend is a parameter of `FormAddFriend.Submit`.
- Each handler is one atomic transition. `Dispatch` drops an event whose control is
  not rendered in the current state (`Enabled`): only the landing page before
  entering, the add form only while open, the split form only while a friend is
  selected.
- Opening the add-friend form does not clear the selection (`HandleShowAddFriend`
  leaves `selectedFriend` alone).
- Unique identifiers are not checked on append; they are kept as a consistency
  property (`ConsistentState`) that holds whenever each added friend brings a fresh
  identifier.

## Model

| member | source | states |
|---|---|---|
| `Friends.ApplyDelta` | src/eatsplit/App.js:91-97 | the split update keeps length, order and every field but the balance; entries with another id are unchanged; entries with the id gain `delta` |
| `Friends.ApplyDeltaKeepsIds` | src/eatsplit/App.js:91-97 | a split leaves the identifier list unchanged, so uniqueness of ids is preserved |
| `Friends.ApplyDeltaUndo` | src/eatsplit/App.js:91-97 | a split by `delta` followed by one by `-delta` on the same id restores the list |
| `Friends.ApplyDeltaSingle` | src/eatsplit/App.js:90-97 | with unique ids, a split on entry `k`'s id equals replacing entry `k` by itself with balance + `delta` |
| `Friends.ApplyDeltaTotal` | src/eatsplit/App.js:91-97 | the total balance moves by `delta` times the number of entries carrying the id |
| `Friends.OccurrencesOfMember` | src/eatsplit/App.js:93 | with unique ids, a member's id matches exactly one entry |
| `Friends.SplitOfMember` | src/eatsplit/App.js:90-97 | with unique ids, a split with a listed friend rewrites that friend's entry alone, keeps ids unique, and moves the total balance by exactly the split amount |
| `Friends.AppendUnique` | src/eatsplit/App.js:81 | appending extends the id list by the new id; ids stay unique iff they were and the new id is fresh |
| `Friends.Classify` | src/eatsplit/App.js:154-160 | a negative balance shows "you owe", a positive one "owes you", zero "even"; exactly one applies; the amount shown is the balance's magnitude |
| `Friends.IsSelected` | src/eatsplit/App.js:147 | a row is highlighted iff a friend with the same id is selected; never with no selection, always for the selected record itself |
| `Friends.InitialFriendsWellFormed` | src/eatsplit/App.js:11-30 | the seed list has unique ids and one friend in each standing (owe 7, owed 20, even) |
| `AddFriendForm.NewFriend` | src/eatsplit/App.js:173-184 | no friend iff name or image is empty; otherwise id, name, zero balance, and image = typed image, "?=", id |
| `AddFriendForm.DistinctIdsGiveDistinctFriends` | src/eatsplit/App.js:178-182 | different generated ids give different ids and different avatar addresses |
| `AddFriendForm.FormAddFriend.constructor` | src/eatsplit/App.js:170-171 | the name starts empty, the image at the avatar service's default address |
| `AddFriendForm.FormAddFriend.ChangeName` | src/eatsplit/App.js:198 | typing sets the name and nothing else |
| `AddFriendForm.FormAddFriend.ChangeImage` | src/eatsplit/App.js:205 | typing sets the image and nothing else |
| `AddFriendForm.FormAddFriend.Submit` | src/eatsplit/App.js:173-190 | emits the submit rule's friend; on success both fields are reset to their defaults, on refusal both are kept |
| `SplitBillForm.Value` | src/eatsplit/App.js:216 | in subtraction and in the `>` guard an empty field counts as 0, a number as itself |
| `SplitBillForm.Truthy` | src/eatsplit/App.js:222 | a field passes the submit guard iff it holds a number and that number is not 0; an empty field never passes |
| `SplitBillForm.PaidByFriend` | src/eatsplit/App.js:216 | the friend's expense is set iff the bill is set and non-zero, and then it and the user's expense add up to the bill |
| `SplitBillForm.SplitDelta` | src/eatsplit/App.js:219-224 | nothing emitted iff the bill or the user's expense is empty or zero; with the user paying, the friend's expense; otherwise, unset payer included, minus the user's expense |
| `SplitBillForm.SplitDeltaSign` | src/eatsplit/App.js:223 | with a positive user expense within the bill, a user-paid bill never lowers the friend's balance and any other lowers it by the user's expense |
| `SplitBillForm.SplitDeltaExamples` | src/eatsplit/App.js:219-224 | a 100 bill with 40 paid by the user gives 60 if the user paid, -40 otherwise; a zero bill or an empty expense gives nothing |
| `SplitBillForm.AcceptPaidByUser` | src/eatsplit/App.js:241-245 | a typed expense above the bill is refused and the old value kept; any other is stored |
| `SplitBillForm.AcceptPaidByUserBound` | src/eatsplit/App.js:241-245 | for every input, the guard keeps an expense within an unchanged bill |
| `SplitBillForm.AcceptPaidByUserExamples` | src/eatsplit/App.js:241-245 | 40 is accepted against a bill of 100, 150 is refused and 40 kept, and lowering the bill to 30 afterwards leaves 40 above it |
| `SplitBillForm.FormSplitBill.constructor` | src/eatsplit/App.js:214-217 | bill, user's expense and payer all start unset |
| `SplitBillForm.FormSplitBill.FriendExpense` | src/eatsplit/App.js:216 | the shown friend's expense is set iff the bill is non-zero and completes the user's expense to the bill |
| `SplitBillForm.FormSplitBill.ChangeBill` | src/eatsplit/App.js:234 | typing sets the bill and nothing else |
| `SplitBillForm.FormSplitBill.ChangePaidByUser` | src/eatsplit/App.js:241-245 | typing stores the guarded value, keeps an expense within the bill, and changes nothing else |
| `SplitBillForm.FormSplitBill.ChangeWhoIsPaying` | src/eatsplit/App.js:254 | choosing the payer sets it and nothing else |
| `SplitBillForm.FormSplitBill.Submit` | src/eatsplit/App.js:219-224 | emits the submit rule's delta for the current fields, changing nothing |
| `Controller.NextSelection` | src/eatsplit/App.js:86 | clicking the selected friend (same id) clears the selection, any other click selects that friend; the row's selected state flips |
| `Controller.SelectTwiceCloses` | src/eatsplit/App.js:85-88 | clicking the same friend twice, from no selection or another friend's, ends with nothing selected |
| `Controller.App.constructor` | src/eatsplit/App.js:69-74 | the seed list, add form closed, nothing selected, landing page shown; the state is consistent |
| `Controller.App.EnterApp` | src/eatsplit/App.js:103 | entering sets the flag and nothing else |
| `Controller.App.HandleShowAddFriend` | src/eatsplit/App.js:76-78 | the add-form flag is negated and nothing else changes |
| `Controller.App.HandleAddFriend` | src/eatsplit/App.js:80-83 | the friend is appended, earlier entries are kept, the add form closes; a fresh id keeps the state consistent |
| `Controller.App.HandleSelection` | src/eatsplit/App.js:85-88 | the selection toggles per `NextSelection`, the add form closes, the list is unchanged |
| `Controller.App.HandleSplitBill` | src/eatsplit/App.js:90-100 | the selected friend's entry gains the value, the rest is kept, the selection clears; when consistent, exactly one entry changes and the total moves by the value |
| `Controller.Enabled` | src/eatsplit/App.js:103-134 | for each event, exactly when its control is rendered: "Enter App" iff not entered; after entering, the toggle always, an add iff the form is open, a row click iff the friend is listed, a split iff a friend is selected |
| `Controller.Step` | src/eatsplit/App.js:76-126 | one event: entered afterwards iff entered before or the event is Enter; the entries already listed keep their place and every field but the balance |
| `Controller.StepIds` | src/eatsplit/App.js:80-100 | a step brings in no identifier but an added friend's, and keeps a consistent state consistent when that identifier is unused |
| `Controller.RunEntered` | src/eatsplit/App.js:74-103 | after any run of events the app is entered iff it was before or the run holds Enter, so entering is never undone |
| `Controller.RunBeforeEntering` | src/eatsplit/App.js:103 | before entering, a run without Enter leaves the whole state unchanged |
| `Controller.RunKeepsRecords` | src/eatsplit/App.js:80-100 | after any run, the friends present before are still at the front, in order, with only their balances changed |
| `Controller.RunConsistent` | src/eatsplit/App.js:80-100 | a consistent state stays consistent over a run in which every added friend brings an unused identifier |
| `Controller.App.Dispatch` | src/eatsplit/App.js:103-126 | the new state is `Step` of the old one: a disabled event changes nothing and an enabled one has exactly its handler's effect; consistency is kept when an added friend brings an unused id |
| `Controller.App.Replay` | src/eatsplit/App.js:68-126 | the new state is `Run` of the old one, every event applied in order; entered afterwards iff entered before or the run holds Enter; before entering, a run without Enter changes nothing; the initial friends keep their place and all but their balances; consistency is kept when every added friend brings an unused id |

## Left out

- Rendering: the JSX of every component, the stylesheet, `Button`, the landing page
  markup, the list layout and the "$" amount text.
- The identifier generator (`crypto.randomUUID`) is a foreign call; the id is a
  parameter and its uniqueness is not claimed, only assumed where stated.
- Text-to-number conversion of typed input, `NaN`, fractional and floating-point
  amounts: fields hold integers or `Empty`.
- React's state batching and updater scheduling, including the split handler reading
  the selection from its render closure: each handler is one atomic transition.
- Component lifetimes: the add-friend form's fields reset when it is closed and
  remounted, and the split form's fields survive a change of the selected friend.
  Each form is modelled as one object whose state only its own handlers change.
- `Controller.App.HandleSplitBill`: requires a selection. Without one the code would
  fail on a null access; the split form is never shown then.
