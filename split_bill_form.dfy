/**
 * The split-bill form: the bill, the user's own expense and the payer choice,
 * the friend's expense derived from them, the input guard on the user's
 * expense, and the submit rule that turns them into a signed balance change for
 * the selected friend.
 */
module SplitBillForm {
  import opened Wrappers

  /** A numeric form field. It starts out as the empty string and holds a number
      once something has been typed into it. */
  datatype Field = Empty | Num(n: int)

  /** Who the payer selector names. It starts out unset; its two options are the
      user and the selected friend. */
  datatype Payer = Unset | UserPays | FriendPays

  /** The number a field stands for in subtraction and comparison, where the
      empty string counts as 0. */
  function Value(f: Field): (v: int)
    ensures f.Num? ==> v == f.n
    ensures f.Empty? ==> v == 0
  {
    if f.Empty? then 0 else f.n
  }

  /** A field passes the submit guard when it holds a number other than 0. */
  function Truthy(f: Field): (passes: bool)
    ensures f.Empty? ==> !passes
    ensures passes <==> Value(f) != 0 && f.Num?
  {
    f.Num? && f.n != 0
  }

  /** The friend's expense shown in the disabled field: empty until the bill is
      set (and non-zero), and then the part of the bill the user did not pay, so
      that the two expenses add up to the bill. */
  function PaidByFriend(bill: Field, paidByUser: Field): (r: Field)
    ensures r.Num? <==> Truthy(bill)
    ensures r.Num? ==> r.n + Value(paidByUser) == bill.n
  {
    if Truthy(bill) then Num(bill.n - Value(paidByUser)) else Empty
  }

  /** The submit rule. Nothing is emitted unless both the bill and the user's
      expense are set and non-zero. When the user paid, the friend's expense is
      emitted (the friend now owes it); in every other case, an unset selector
      included, the user's expense is emitted negated (the user now owes it). */
  function SplitDelta(bill: Field, paidByUser: Field, whoIsPaying: Payer): (r: Option<int>)
    ensures r.None? <==> !Truthy(bill) || !Truthy(paidByUser)
    ensures r.Some? && whoIsPaying == UserPays ==> PaidByFriend(bill, paidByUser) == Num(r.value)
    ensures r.Some? && whoIsPaying == UserPays ==> r.value + paidByUser.n == bill.n
    ensures r.Some? && whoIsPaying != UserPays ==> r.value == -paidByUser.n
  {
    if !Truthy(bill) || !Truthy(paidByUser) then None
    else if whoIsPaying == UserPays then Some(PaidByFriend(bill, paidByUser).n)
    else Some(-paidByUser.n)
  }

  /** The sign convention: with a positive expense of the user within the bill, a
      bill the user paid never lowers the friend's balance, and a bill the friend
      paid (or an unset payer) always lowers it, by the user's expense. */
  lemma SplitDeltaSign(bill: Field, paidByUser: Field, whoIsPaying: Payer)
    requires Truthy(bill) && paidByUser.Num? && 0 < paidByUser.n <= bill.n
    ensures SplitDelta(bill, paidByUser, whoIsPaying).Some?
    ensures whoIsPaying == UserPays ==> SplitDelta(bill, paidByUser, whoIsPaying).value >= 0
    ensures whoIsPaying != UserPays ==>
      SplitDelta(bill, paidByUser, whoIsPaying).value == -paidByUser.n < 0
  {
  }

  /** The two worked splits of a 100 bill with 40 paid by the user. */
  lemma SplitDeltaExamples()
    ensures SplitDelta(Num(100), Num(40), UserPays) == Some(60)
    ensures SplitDelta(Num(100), Num(40), FriendPays) == Some(-40)
    ensures SplitDelta(Num(100), Num(40), Unset) == Some(-40)
    ensures SplitDelta(Num(0), Num(40), UserPays) == None
    ensures SplitDelta(Num(100), Empty, UserPays) == None
  {
  }

  /** The input guard on the user's expense: a typed value above the current bill
      is refused and the previous value stays; any other value is taken. */
  function AcceptPaidByUser(current: Field, bill: Field, input: int): (r: Field)
    ensures input <= Value(bill) ==> r == Num(input)
    ensures input > Value(bill) ==> r == current
  {
    if input > Value(bill) then current else Num(input)
  }

  /** The guard keeps the user's expense within the bill as long as the bill
      does not change. */
  lemma AcceptPaidByUserBound(current: Field, bill: Field, input: int)
    requires Value(current) <= Value(bill)
    ensures Value(AcceptPaidByUser(current, bill, input)) <= Value(bill)
  {
  }

  /** The guard is checked when typing only: 40 is accepted against a bill of
      100, 150 is refused, and lowering the bill to 30 afterwards leaves the
      stored 40 above it. */
  lemma AcceptPaidByUserExamples()
    ensures AcceptPaidByUser(Empty, Num(100), 40) == Num(40)
    ensures AcceptPaidByUser(Num(40), Num(100), 150) == Num(40)
    ensures Value(AcceptPaidByUser(Empty, Num(100), 40)) > Value(Num(30))
  {
  }

  /** The form's own state. */
  class FormSplitBill {
    var bill: Field
    var paidByUser: Field
    var whoIsPaying: Payer

    constructor ()
      ensures bill == Empty && paidByUser == Empty && whoIsPaying == Unset
    {
      bill := Empty;
      paidByUser := Empty;
      whoIsPaying := Unset;
    }

    /** The friend's expense the form shows. */
    function FriendExpense(): (r: Field)
      reads this
      ensures r.Num? <==> Truthy(bill)
      ensures r.Num? ==> r.n + Value(paidByUser) == bill.n
    {
      PaidByFriend(bill, paidByUser)
    }

    method ChangeBill(input: int)
      modifies this
      ensures bill == Num(input)
      ensures paidByUser == old(paidByUser) && whoIsPaying == old(whoIsPaying)
    {
      bill := Num(input);
    }

    method ChangePaidByUser(input: int)
      modifies this
      ensures paidByUser == AcceptPaidByUser(old(paidByUser), old(bill), input)
      ensures old(Value(paidByUser)) <= old(Value(bill)) ==> Value(paidByUser) <= Value(bill)
      ensures bill == old(bill) && whoIsPaying == old(whoIsPaying)
    {
      if input <= Value(bill) {
        paidByUser := Num(input);
      }
    }

    method ChangeWhoIsPaying(choice: Payer)
      modifies this
      ensures whoIsPaying == choice
      ensures bill == old(bill) && paidByUser == old(paidByUser)
    {
      whoIsPaying := choice;
    }

    /** Submitting emits the signed change of the selected friend's balance, or
        nothing when the guard refuses; the form's fields are left as they are. */
    method Submit() returns (delta: Option<int>)
      ensures delta == SplitDelta(bill, paidByUser, whoIsPaying)
    {
      delta := SplitDelta(bill, paidByUser, whoIsPaying);
    }
  }
}
