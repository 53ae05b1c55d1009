/**
 * The root App component as a state machine: it owns the friend list, the
 * add-form toggle, the current selection and the landing-page flag, and each
 * event handler is one atomic transition of that state.
 */
module Controller {
  import opened Wrappers
  import opened Friends

  /** The selection after clicking a friend's button: clicking the friend that
      is already selected (same id) closes it, clicking any other friend selects
      that one. */
  function NextSelection(current: Option<Friend>, f: Friend): (r: Option<Friend>)
    ensures r.None? <==> IsSelected(current, f)
    ensures r.Some? ==> r.value == f
    ensures IsSelected(r, f) <==> !IsSelected(current, f)
  {
    if IsSelected(current, f) then None else Some(f)
  }

  /** Clicking the same friend twice, starting from no selection or from another
      friend's selection, ends with nothing selected. */
  lemma SelectTwiceCloses(current: Option<Friend>, f: Friend)
    requires !IsSelected(current, f)
    ensures NextSelection(NextSelection(current, f), f) == None
  {
  }

  /** The user interface events that reach the App component. */
  datatype Event =
    | Enter                       // "Enter App" on the landing page
    | ToggleAddFriend             // "Add friend" / "close" under the list
    | FriendAdded(friend: Friend) // a successful add-friend submit
    | FriendSelected(friend: Friend) // "select" / "close" on a list row
    | BillSplit(delta: int)       // a successful split-bill submit

  /** The App component's state as a value. */
  datatype AppState = AppState(
    friends: seq<Friend>,
    showAddFriend: bool,
    selectedFriend: Option<Friend>,
    entered: bool)

  /** Identifiers are unique and the selected friend, if any, is an entry of
      the list. */
  predicate ConsistentState(s: AppState)
  {
    UniqueIds(s.friends) && (s.selectedFriend.Some? ==> s.selectedFriend.value in s.friends)
  }

  /** Whether an event can happen in state `s`, that is, whether its control is
      rendered: the landing page is the only thing shown before entering, the
      add-friend form only while it is open and the split form only while a
      friend is selected; a row can only be clicked for a friend in the list. */
  function Enabled(s: AppState, e: Event): (can: bool)
    ensures e.Enter? ==> (can <==> !s.entered)
    ensures !e.Enter? && can ==> s.entered
    ensures e.ToggleAddFriend? ==> (can <==> s.entered)
    ensures e.FriendAdded? ==> (can <==> s.entered && s.showAddFriend)
    ensures e.FriendSelected? ==> (can <==> s.entered && e.friend in s.friends)
    ensures e.BillSplit? ==> (can <==> s.entered && s.selectedFriend.Some?)
  {
    match e
    case Enter => !s.entered
    case ToggleAddFriend => s.entered
    case FriendAdded(_) => s.entered && s.showAddFriend
    case FriendSelected(f) => s.entered && f in s.friends
    case BillSplit(_) => s.entered && s.selectedFriend.Some?
  }

  /** One event: an enabled event has its handler's effect, an event whose
      control is not on screen has none. Entering is never undone, and the
      friends already listed keep their place and every field but the
      balance. */
  function Step(s: AppState, e: Event): (t: AppState)
    ensures t.entered <==> s.entered || e == Enter
    ensures KeptApartFromBalance(s.friends, t.friends)
  {
    if !Enabled(s, e) then s
    else
      match e
      case Enter => s.(entered := true)
      case ToggleAddFriend => s.(showAddFriend := !s.showAddFriend)
      case FriendAdded(f) => s.(friends := s.friends + [f], showAddFriend := false)
      case FriendSelected(f) =>
        s.(selectedFriend := NextSelection(s.selectedFriend, f), showAddFriend := false)
      case BillSplit(delta) =>
        s.(friends := ApplyDelta(s.friends, s.selectedFriend.value.id, delta),
           selectedFriend := None)
  }

  /** The only identifier a step can bring in is that of an added friend, and a
      step keeps a consistent state consistent when that identifier is unused. */
  lemma StepIds(s: AppState, e: Event)
    ensures forall x :: x in Ids(Step(s, e).friends) ==>
      x in Ids(s.friends) || (e.FriendAdded? && x == e.friend.id)
    ensures ConsistentState(s) && (e.FriendAdded? ==> e.friend.id !in Ids(s.friends)) ==>
      ConsistentState(Step(s, e))
  {
    if Enabled(s, e) {
      match e
      case FriendAdded(f) =>
        AppendUnique(s.friends, f);
      case BillSplit(delta) =>
        var selected := s.selectedFriend.value;
        ApplyDeltaKeepsIds(s.friends, selected.id, delta);
      case _ =>
    }
  }

  /** A run of events, applied one after another in order. */
  function Run(s: AppState, events: seq<Event>): AppState
    decreases |events|
  {
    if events == [] then s else Run(Step(s, events[0]), events[1..])
  }

  /** After a run the app is entered exactly when it was before or the run
      holds an Enter event: once entered, no sequence of events returns to the
      landing page. */
  lemma {:induction false} RunEntered(s: AppState, events: seq<Event>)
    ensures Run(s, events).entered <==> s.entered || Enter in events
    decreases |events|
  {
    if events != [] {
      assert events == [events[0]] + events[1..];
      RunEntered(Step(s, events[0]), events[1..]);
    }
  }

  /** Before entering, a run without an Enter event changes nothing. */
  lemma {:induction false} RunBeforeEntering(s: AppState, events: seq<Event>)
    requires !s.entered && Enter !in events
    ensures Run(s, events) == s
    decreases |events|
  {
    if events != [] {
      assert events[0] in events;
      assert Step(s, events[0]) == s;
      assert forall x :: x in events[1..] ==> x in events;
      RunBeforeEntering(s, events[1..]);
    }
  }

  /** The friends present before a run are still there afterwards, at the front
      of the list, in the same order, with only their balances changed. */
  lemma {:induction false} RunKeepsRecords(s: AppState, events: seq<Event>)
    ensures KeptApartFromBalance(s.friends, Run(s, events).friends)
    decreases |events|
  {
    if events != [] {
      var t := Step(s, events[0]);
      RunKeepsRecords(t, events[1..]);
      KeptApartFromBalanceTransitive(s.friends, t.friends, Run(t, events[1..]).friends);
    }
  }

  /** Every friend added by `events` brings an identifier outside `used` and
      outside those of the friends added before it. */
  predicate FreshAdds(used: seq<Id>, events: seq<Event>)
    decreases |events|
  {
    events == [] ||
    ((events[0].FriendAdded? ==> events[0].friend.id !in used) &&
     FreshAdds(if events[0].FriendAdded? then used + [events[0].friend.id] else used, events[1..]))
  }

  /** Freshness against a set of identifiers carries over to any smaller set. */
  lemma {:induction false} FreshAddsShrink(small: seq<Id>, big: seq<Id>, events: seq<Event>)
    requires forall x :: x in small ==> x in big
    requires FreshAdds(big, events)
    ensures FreshAdds(small, events)
    decreases |events|
  {
    if events != [] {
      var e := events[0];
      var small' := if e.FriendAdded? then small + [e.friend.id] else small;
      var big' := if e.FriendAdded? then big + [e.friend.id] else big;
      FreshAddsShrink(small', big', events[1..]);
    }
  }

  /** A consistent state stays consistent over a run in which every added
      friend brings an identifier that was not in use. */
  lemma {:induction false} RunConsistent(s: AppState, events: seq<Event>)
    requires ConsistentState(s) && FreshAdds(Ids(s.friends), events)
    ensures ConsistentState(Run(s, events))
    decreases |events|
  {
    if events != [] {
      var e := events[0];
      var t := Step(s, e);
      StepIds(s, e);
      var next := if e.FriendAdded? then Ids(s.friends) + [e.friend.id] else Ids(s.friends);
      FreshAddsShrink(Ids(t.friends), next, events[1..]);
      RunConsistent(t, events[1..]);
    }
  }

  class App {
    var friends: seq<Friend>
    var showAddFriend: bool
    var selectedFriend: Option<Friend>
    var entered: bool

    /** The four fields as a value. */
    function State(): (s: AppState)
      reads this
      ensures s.friends == friends && s.showAddFriend == showAddFriend
      ensures s.selectedFriend == selectedFriend && s.entered == entered
    {
      AppState(friends, showAddFriend, selectedFriend, entered)
    }

    predicate Consistent()
      reads this
    {
      ConsistentState(State())
    }

    constructor ()
      ensures friends == InitialFriends && !showAddFriend && selectedFriend == None && !entered
      ensures Consistent()
    {
      friends := InitialFriends;
      showAddFriend := false;
      selectedFriend := None;
      entered := false;
      InitialFriendsWellFormed();
    }

    /** Leaving the landing page. */
    method EnterApp()
      modifies this
      ensures entered
      ensures friends == old(friends) && showAddFriend == old(showAddFriend)
      ensures selectedFriend == old(selectedFriend)
    {
      entered := true;
    }

    /** Opening or closing the add-friend form; applying it twice restores the
        flag, and nothing else changes. */
    method HandleShowAddFriend()
      modifies this
      ensures showAddFriend == !old(showAddFriend)
      ensures friends == old(friends) && selectedFriend == old(selectedFriend)
      ensures entered == old(entered)
    {
      showAddFriend := !showAddFriend;
    }

    /** A friend from the form goes to the end of the list, every earlier entry
        stays where it was, and the form closes. A friend with a fresh id keeps
        the state consistent. */
    method HandleAddFriend(f: Friend)
      modifies this
      ensures friends == old(friends) + [f]
      ensures !showAddFriend
      ensures selectedFriend == old(selectedFriend) && entered == old(entered)
      ensures old(Consistent()) && f.id !in Ids(old(friends)) ==> Consistent()
    {
      AppendUnique(friends, f);
      friends := friends + [f];
      showAddFriend := false;
    }

    /** Clicking a friend toggles the selection and closes the add-friend form. */
    method HandleSelection(f: Friend)
      modifies this
      ensures selectedFriend == NextSelection(old(selectedFriend), f)
      ensures !showAddFriend
      ensures friends == old(friends) && entered == old(entered)
      ensures old(Consistent()) && f in friends ==> Consistent()
    {
      selectedFriend := NextSelection(selectedFriend, f);
      showAddFriend := false;
    }

    /** A split adds `value` to the balance of the entry whose id is the selected
        friend's, keeps every other entry, the order and the length, and closes
        the split form. In a consistent state exactly one entry changes, and the
        total balance moves by exactly `value`. */
    method HandleSplitBill(value: int)
      requires selectedFriend.Some?
      modifies this
      ensures friends == ApplyDelta(old(friends), old(selectedFriend).value.id, value)
      ensures selectedFriend == None
      ensures showAddFriend == old(showAddFriend) && entered == old(entered)
      ensures old(Consistent()) ==> Consistent()
      ensures old(Consistent()) ==>
        exists k :: 0 <= k < |old(friends)| && old(friends)[k] == old(selectedFriend).value &&
          SingleUpdate(old(friends), friends, k, value)
      ensures old(Consistent()) ==> TotalBalance(friends) == TotalBalance(old(friends)) + value
    {
      var selected := selectedFriend.value;
      ghost var before := friends;
      ghost var wasConsistent := Consistent();
      var updated := ApplyDelta(friends, selected.id, value);
      if wasConsistent {
        assert UniqueIds(before) && selected in before;
        SplitOfMember(before, selected, value);
      }
      friends := updated;
      selectedFriend := None;
    }

    /** One event, delivered to its handler when its control is on screen. */
    method Dispatch(e: Event)
      modifies this
      ensures State() == Step(old(State()), e)
      ensures old(Consistent()) && (e.FriendAdded? ==> e.friend.id !in Ids(old(friends))) ==>
        Consistent()
    {
      StepIds(State(), e);
      if !Enabled(State(), e) {
        return;
      }
      match e
      case Enter =>
        EnterApp();
      case ToggleAddFriend =>
        HandleShowAddFriend();
      case FriendAdded(f) =>
        HandleAddFriend(f);
      case FriendSelected(f) =>
        HandleSelection(f);
      case BillSplit(delta) =>
        HandleSplitBill(delta);
    }

    /** A run of events, each delivered in order. The app is entered afterwards
        exactly when it was before or the run holds an Enter event, and before
        entering nothing but Enter has any effect. The friends present at the
        start are still there, in the same order, at the front of the list, with
        only their balances changed. A consistent state stays consistent when
        every added friend brings an id that was not in use. */
    method Replay(events: seq<Event>)
      modifies this
      ensures State() == Run(old(State()), events)
      ensures entered <==> old(entered) || Enter in events
      ensures !old(entered) && Enter !in events ==> State() == old(State())
      ensures KeptApartFromBalance(old(friends), friends)
      ensures old(Consistent()) && FreshAdds(Ids(old(friends)), events) ==> Consistent()
      decreases |events|
    {
      if events != [] {
        Dispatch(events[0]);
        Replay(events[1..]);
      }
      RunEntered(old(State()), events);
      RunKeepsRecords(old(State()), events);
      if !old(entered) && Enter !in events {
        RunBeforeEntering(old(State()), events);
      }
      if old(Consistent()) && FreshAdds(Ids(old(friends)), events) {
        RunConsistent(old(State()), events);
      }
    }
  }
}
