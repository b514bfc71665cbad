/** The kinds of account a client can open (`model.AccountType`). */
module AccountTypes {

  /** A closed enumeration: these three values and no others. */
  datatype AccountType = Savings | Deposit | Credit {

    /** The description each constant is declared with; it is fixed with the
        constant and `getDescription` returns it. */
    function Description(): (d: string)
      ensures |d| > 1 && 'A' <= d[0] <= 'Z'
      ensures forall i :: 1 <= i < |d| ==> 'a' <= d[i] <= 'z'
    {
      match this
      case Savings => "Savings"
      case Deposit => "Deposit"
      case Credit => "Credit"
    }
  }

  /** The enumeration has exactly three members. */
  lemma ExactlyThreeTypes(t: AccountType)
    ensures t == Savings || t == Deposit || t == Credit
    ensures Savings != Deposit && Deposit != Credit && Savings != Credit
  {
  }

  /** Each constant carries its own description, and no two share one: the
      description identifies the type. */
  lemma DescriptionsIdentifyTypes(t: AccountType, u: AccountType)
    ensures Savings.Description() == "Savings"
    ensures Deposit.Description() == "Deposit"
    ensures Credit.Description() == "Credit"
    ensures t.Description() == u.Description() <==> t == u
  {
    if t != u {
      assert t.Description()[0] != u.Description()[0];
    }
  }
}
