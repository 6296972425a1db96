/** The string enumerations both services exchange: the Order workflow
    status, the product catalogue and the Payment status. Each enum member
    travels as a fixed wire string, and validating a string accepts exactly
    those wire strings. */
module Enums {
  import opened Common

  /** Order workflow status. */
  datatype Status =
    | CREA | ORCA | PAID | REIM | FAIL | DESC | DRAV
    | SHED | COOK | PROD | PICK | TRAN | DONE

  const AllStatuses: seq<Status> :=
    [CREA, ORCA, PAID, REIM, FAIL, DESC, DRAV, SHED, COOK, PROD, PICK, TRAN, DONE]

  function StatusWire(s: Status): string {
    match s
    case CREA => "created"
    case ORCA => "orderCancelled"
    case PAID => "paymentPaid"
    case REIM => "reimbursed"
    case FAIL => "paymentFailed"
    case DESC => "deliveryScheduled"
    case DRAV => "driverAvailable"
    case SHED => "cookingScheduled"
    case COOK => "cookingMeal"
    case PROD => "cookingDone"
    case PICK => "pickedUp"
    case TRAN => "inTransit"
    case DONE => "delivered"
  }

  /** Enum validation of a string: a member whose value is exactly `w`, or the validation error. */
  function ParseStatus(w: string): (r: Option<Status>)
    ensures r.Some? ==> StatusWire(r.value) == w
    ensures r.None? ==> forall s: Status :: StatusWire(s) != w
  {
    if w == "created" then Some(CREA)
    else if w == "orderCancelled" then Some(ORCA)
    else if w == "paymentPaid" then Some(PAID)
    else if w == "reimbursed" then Some(REIM)
    else if w == "paymentFailed" then Some(FAIL)
    else if w == "deliveryScheduled" then Some(DESC)
    else if w == "driverAvailable" then Some(DRAV)
    else if w == "cookingScheduled" then Some(SHED)
    else if w == "cookingMeal" then Some(COOK)
    else if w == "cookingDone" then Some(PROD)
    else if w == "pickedUp" then Some(PICK)
    else if w == "inTransit" then Some(TRAN)
    else if w == "delivered" then Some(DONE)
    else None
  }

  /** There are exactly 13 statuses, all with distinct wire strings, and a
      string validates iff it is one of them. */
  lemma StatusEnumeration()
    ensures |AllStatuses| == 13
    ensures forall s: Status :: s in AllStatuses
    ensures forall i, j :: 0 <= i < j < |AllStatuses| ==> StatusWire(AllStatuses[i]) != StatusWire(AllStatuses[j])
    ensures forall w :: ParseStatus(w).Some? <==> exists s: Status :: StatusWire(s) == w
  {
    forall s: Status
      ensures s in AllStatuses
    {
      match s
      case CREA => assert AllStatuses[0] == s;
      case ORCA => assert AllStatuses[1] == s;
      case PAID => assert AllStatuses[2] == s;
      case REIM => assert AllStatuses[3] == s;
      case FAIL => assert AllStatuses[4] == s;
      case DESC => assert AllStatuses[5] == s;
      case DRAV => assert AllStatuses[6] == s;
      case SHED => assert AllStatuses[7] == s;
      case COOK => assert AllStatuses[8] == s;
      case PROD => assert AllStatuses[9] == s;
      case PICK => assert AllStatuses[10] == s;
      case TRAN => assert AllStatuses[11] == s;
      case DONE => assert AllStatuses[12] == s;
    }
    forall w
      ensures ParseStatus(w).Some? <==> exists s: Status :: StatusWire(s) == w
    {
      if ParseStatus(w).Some? {
        assert StatusWire(ParseStatus(w).value) == w;
      }
    }
  }

  lemma ParseStatusWire(s: Status)
    ensures ParseStatus(StatusWire(s)) == Some(s)
  {
  }

  /** The food catalogue. */
  datatype Product = Lasagna | CheeseBurger | Veil | VegoSalad

  function ProductWire(p: Product): string {
    match p
    case Lasagna => "Lasagna"
    case CheeseBurger => "Double Cheeseburger"
    case Veil => "Veil with glazed onions and blue cheese"
    case VegoSalad => "Vegetarian Salad with healthy produce"
  }

  function ParseProduct(w: string): (r: Option<Product>)
    ensures r.Some? ==> ProductWire(r.value) == w
    ensures r.None? ==> forall p: Product :: ProductWire(p) != w
  {
    if w == "Lasagna" then Some(Lasagna)
    else if w == "Double Cheeseburger" then Some(CheeseBurger)
    else if w == "Veil with glazed onions and blue cheese" then Some(Veil)
    else if w == "Vegetarian Salad with healthy produce" then Some(VegoSalad)
    else None
  }

  /** Payment result status: `PEND`, `REIM`, `PAID` and `FAIL` in the source. */
  datatype PayStatus = Pending | Reimbursed | PaymentPaid | PaymentFailed

  const AllPayStatuses: seq<PayStatus> := [Pending, Reimbursed, PaymentPaid, PaymentFailed]

  function PayStatusWire(p: PayStatus): string {
    match p
    case Pending => "pending"
    case Reimbursed => "reimbursed"
    case PaymentPaid => "paymentPaid"
    case PaymentFailed => "paymentFailed"
  }

  function ParsePayStatus(w: string): (r: Option<PayStatus>)
    ensures r.Some? ==> PayStatusWire(r.value) == w
    ensures r.None? ==> forall p: PayStatus :: PayStatusWire(p) != w
  {
    if w == "pending" then Some(Pending)
    else if w == "reimbursed" then Some(Reimbursed)
    else if w == "paymentPaid" then Some(PaymentPaid)
    else if w == "paymentFailed" then Some(PaymentFailed)
    else None
  }

  /** Exactly four payment statuses with distinct wire strings. */
  lemma PayStatusEnumeration()
    ensures |AllPayStatuses| == 4
    ensures forall p: PayStatus :: p in AllPayStatuses
    ensures forall i, j :: 0 <= i < j < |AllPayStatuses| ==> PayStatusWire(AllPayStatuses[i]) != PayStatusWire(AllPayStatuses[j])
  {
    forall p: PayStatus
      ensures p in AllPayStatuses
    {
      match p
      case Pending => assert AllPayStatuses[0] == p;
      case Reimbursed => assert AllPayStatuses[1] == p;
      case PaymentPaid => assert AllPayStatuses[2] == p;
      case PaymentFailed => assert AllPayStatuses[3] == p;
    }
  }

  /** A payment status read as an Order status: the three settled ones are
      Order statuses under the same wire string, `pending` is not one. */
  lemma PayStatusAsOrderStatus(p: PayStatus)
    ensures ParseStatus(PayStatusWire(p)).Some? <==> p != Pending
    ensures p == PaymentPaid ==> ParseStatus(PayStatusWire(p)) == Some(PAID)
    ensures p == PaymentFailed ==> ParseStatus(PayStatusWire(p)) == Some(FAIL)
    ensures p == Reimbursed ==> ParseStatus(PayStatusWire(p)) == Some(REIM)
  {
  }
}
