/** The closed set of order statuses and the list of them that validation messages and checks use. */
module OrderStatusEnum {
  import opened Wrappers

  datatype OrderStatus = PENDING | SHIPPED | DELIVERED | CANCELLED

  /** The enum's string value, which is the member's own name. */
  function Value(s: OrderStatus): string {
    match s
    case PENDING => "PENDING"
    case SHIPPED => "SHIPPED"
    case DELIVERED => "DELIVERED"
    case CANCELLED => "CANCELLED"
  }

  /** The position of a member in the enum declaration. */
  function Ordinal(s: OrderStatus): nat {
    match s
    case PENDING => 0
    case SHIPPED => 1
    case DELIVERED => 2
    case CANCELLED => 3
  }

  /** `OrderStatusList`: every member once, in declaration order. */
  function OrderStatusList(): (l: seq<OrderStatus>)
    ensures forall s: OrderStatus :: s in l
    ensures forall i :: 0 <= i < |l| ==> Ordinal(l[i]) == i
    ensures |l| == 4
    ensures forall i, j :: 0 <= i < j < |l| ==> l[i] != l[j]
  {
    var l := [PENDING, SHIPPED, DELIVERED, CANCELLED];
    assert forall s: OrderStatus :: s in l by {
      forall s: OrderStatus ensures s in l {
        assert l[Ordinal(s)] == s;
      }
    }
    l
  }

  /** The member of `l` whose value is `x`, if there is one. */
  function FindByValue(l: seq<OrderStatus>, x: string): (r: Option<OrderStatus>)
    ensures r.Some? ==> r.value in l && Value(r.value) == x
    ensures r.None? ==> forall s :: s in l ==> Value(s) != x
  {
    if l == [] then None
    else if Value(l[0]) == x then Some(l[0])
    else FindByValue(l[1..], x)
  }

  /** Reading a status string against the enum: the member with that value, if any. */
  function Parse(x: string): (r: Option<OrderStatus>)
    ensures r.Some? ==> Value(r.value) == x
    ensures r.None? ==> forall s: OrderStatus :: Value(s) != x
  {
    FindByValue(OrderStatusList(), x)
  }

  /** Values and members correspond one to one: parsing a member's value gives that member back,
      and a string parses exactly when it is some member's value. */
  lemma ParseValueRoundTrip(s: OrderStatus, x: string)
    ensures Parse(Value(s)) == Some(s)
    ensures Parse(x).Some? <==> exists t: OrderStatus :: Value(t) == x
  {
  }

  /** A string outside the enum, such as "ARCHIVED", names no status. */
  lemma ArchivedIsNotAStatus()
    ensures Parse("ARCHIVED").None?
  {
  }
}
