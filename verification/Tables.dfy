/** The tables of the simulated tools (src/tools/crm.py, src/tools/order.py), which meet the detector's assumptions. The
    columns no check reads are parameters or left out. */
module Tables {
  import opened Values
  import opened Records
  import opened Detector

  function Digit(d: nat): char
    requires d < 10
  {
    '0' + d as char
  }

  /** Four decimal digits with leading zeros. */
  function FourDigits(n: nat): (s: string)
    requires n < 10000
    ensures |s| == 4
  {
    [Digit(n / 1000), Digit(n / 100 % 10), Digit(n / 10 % 10), Digit(n % 10)]
  }

  lemma DigitIsInjective(c: nat, d: nat)
    requires c < 10 && d < 10 && Digit(c) == Digit(d)
    ensures c == d
  {
  }

  lemma HundredsAndTens(n: nat)
    ensures n == n / 1000 * 1000 + n / 100 % 10 * 100 + n / 10 % 10 * 10 + n % 10
  {
    assert n / 10 / 10 == n / 100 && n / 100 / 10 == n / 1000;
    assert n == n / 10 * 10 + n % 10;
    assert n / 10 == n / 100 * 10 + n / 10 % 10;
  }

  lemma FourDigitsDiffer(m: nat, n: nat)
    requires m < 10000 && n < 10000 && m != n
    ensures FourDigits(m) != FourDigits(n)
  {
    if FourDigits(m) == FourDigits(n) {
      forall k | 0 <= k < 4 ensures FourDigits(m)[k] == FourDigits(n)[k] { }
      DigitIsInjective(m / 1000, n / 1000);
      DigitIsInjective(m / 100 % 10, n / 100 % 10);
      DigitIsInjective(m / 10 % 10, n / 10 % 10);
      DigitIsInjective(m % 10, n % 10);
      HundredsAndTens(m);
      HundredsAndTens(n);
    }
  }

  function Identifier(prefix: string, n: nat): string
    requires n < 10000
  {
    prefix + FourDigits(n)
  }

  lemma IdentifiersDiffer(prefix: string, m: nat, n: nat)
    requires m < 10000 && n < 10000 && m != n
    ensures Identifier(prefix, m) != Identifier(prefix, n)
  {
    FourDigitsDiffer(m, n);
    assert Identifier(prefix, m)[|prefix|..] == FourDigits(m) && Identifier(prefix, n)[|prefix|..] == FourDigits(n);
  }

  const TIERS: seq<string> := ["bronze", "silver", "gold", "platinum"]

  const STATUSES: seq<string> := ["delivered", "shipped", "processing", "pending"]

  /** The columns that no check reads, row by row. */
  datatype Columns = Columns(email: nat -> string, name: nat -> string, value: nat -> real, contact: nat -> string,
                             amount: nat -> real, address: nat -> string)

  function Customer(cols: Columns, i: nat): Dict
    requires 1 <= i < 10000
  {
    map["customer_id" := Str(Identifier("CUST-", i)), "email" := Str(cols.email(i)), "name" := Str(cols.name(i)),
        "tier" := Str(TIERS[(i - 1) % 4]), "lifetime_value" := Num(cols.value(i)),
        "open_tickets" := Num((i * 7 % 4) as real), "last_contact" := Str(cols.contact(i))]
  }

  function Order(cols: Columns, i: nat): Dict
    requires 1 <= i < 9000
  {
    map["order_id" := Str(Identifier("ORD-", 1000 + i)), "customer_id" := Str(Identifier("CUST-", i * 7 % 200 + 1)),
        "status" := Str(STATUSES[(i - 1) % 4]), "total_amount" := Num(cols.amount(i)), "currency" := Str("USD"),
        "shipping_address" := Str(cols.address(i))]
  }

  function Customers(cols: Columns): Table {
    seq(200, k requires 0 <= k < 200 => Customer(cols, k + 1))
  }

  function Orders(cols: Columns): Table {
    seq(60, k requires 0 <= k < 60 => Order(cols, k + 1))
  }

  lemma TierIsKnown(k: nat)
    requires k < 4
    ensures TIERS[k] != "unknown"
  {
    assert |TIERS[0]| == 6 && |TIERS[1]| == 6 && |TIERS[2]| == 4 && |TIERS[3]| == 8 && |"unknown"| == 7;
  }

  lemma StatusIsGood(k: nat)
    requires k < 4
    ensures !MarkedBad(Str(STATUSES[k]))
  {
    assert STATUSES[0][0] == 'd' && STATUSES[1][0] == 's' && STATUSES[2][0] == 'p' && STATUSES[3][0] == 'p';
    assert "not_found"[0] == 'n' && "UNKNOWN"[0] == 'U';
  }

  lemma CustomerFits(cols: Columns, i: nat)
    requires 1 <= i < 10000
    ensures GoodCustomer(Customer(cols, i)) && Get(Customer(cols, i), "customer_id") == Str(Identifier("CUST-", i))
    ensures Identifier("CUST-", i) != ""
  {
    var c := Customer(cols, i);
    TierIsKnown((i - 1) % 4);
    assert Identifier("CUST-", i)[0] == 'C' && "not_found"[0] == 'n';
    assert Get(c, "customer_id") == Str(Identifier("CUST-", i)) && Get(c, "tier") == Str(TIERS[(i - 1) % 4]);
    assert Get(c, "lifetime_value") == Num(cols.value(i));
    hide TIERS, Identifier;
    assert "status" !in c;
    assert "note" !in c;
  }

  lemma OrderFits(cols: Columns, i: nat)
    requires 1 <= i < 9000
    ensures GoodOrder(Order(cols, i)) && Get(Order(cols, i), "order_id") == Str(Identifier("ORD-", 1000 + i))
    ensures Identifier("ORD-", 1000 + i) != ""
  {
    var o := Order(cols, i);
    StatusIsGood((i - 1) % 4);
    assert Identifier("ORD-", 1000 + i)[0] == 'O';
    assert Get(o, "order_id") == Str(Identifier("ORD-", 1000 + i)) && Get(o, "status") == Str(STATUSES[(i - 1) % 4]);
    hide STATUSES, Identifier;
    assert "note" !in o;
  }

  lemma CustomersFit(cols: Columns)
    ensures var t := Customers(cols);
            |t| == 200 && Keyed(t, "customer_id") && forall c :: c in t ==> GoodCustomer(c)
  {
    hide Customer, GoodCustomer, Get, Identifier;
    var t := Customers(cols);
    forall i | 0 <= i < 200
      ensures GoodCustomer(t[i]) && Get(t[i], "customer_id") == Str(Identifier("CUST-", i + 1)) && Identifier("CUST-", i + 1) != ""
    {
      CustomerFits(cols, i + 1);
    }
    forall i, j | 0 <= i < j < 200 ensures Get(t[i], "customer_id") != Get(t[j], "customer_id") {
      IdentifiersDiffer("CUST-", i + 1, j + 1);
    }
  }

  lemma OrdersFit(cols: Columns)
    ensures var t := Orders(cols);
            |t| == 60 && Keyed(t, "order_id") && forall o :: o in t ==> GoodOrder(o)
  {
    hide Order, GoodOrder, Get, Identifier;
    var t := Orders(cols);
    forall i | 0 <= i < 60
      ensures GoodOrder(t[i]) && Get(t[i], "order_id") == Str(Identifier("ORD-", 1001 + i)) && Identifier("ORD-", 1001 + i) != ""
    {
      OrderFits(cols, i + 1);
    }
    forall i, j | 0 <= i < j < 60 ensures Get(t[i], "order_id") != Get(t[j], "order_id") {
      IdentifiersDiffer("ORD-", 1001 + i, 1001 + j);
    }
  }

  /** The digits read back as the number, as in "CUST-0042". */
  lemma FourDigitsRead(n: nat)
    requires n < 10000
    ensures var s := FourDigits(n);
            n == (s[0] - '0') as int * 1000 + (s[1] - '0') as int * 100 + (s[2] - '0') as int * 10 + (s[3] - '0') as int
  {
    HundredsAndTens(n);
  }

  lemma OrderCustomer(cols: Columns, i: nat)
    requires 1 <= i < 9000
    ensures Get(Order(cols, i), "customer_id") == Str(Identifier("CUST-", i * 7 % 200 + 1))
  {
  }

  /** Every order belongs to one of the customers, and the identifiers count from CUST-0001 and ORD-1001. */
  lemma OrdersHaveCustomers(cols: Columns, k: nat)
    requires k < 60
    ensures var customers, order := Customers(cols), Orders(cols)[k];
            && Get(order, "customer_id") == Get(customers[(k + 1) * 7 % 200], "customer_id")
            && Get(order, "order_id") == Str("ORD-" + FourDigits(1001 + k))
            && Get(customers[k], "customer_id") == Str("CUST-" + FourDigits(1 + k))
  {
    hide FourDigits, Order, Customer, GoodOrder, GoodCustomer, Get;
    var i := (k + 1) * 7 % 200;
    assert Customers(cols)[i] == Customer(cols, i + 1) && Orders(cols)[k] == Order(cols, k + 1);
    OrderCustomer(cols, k + 1);
    CustomerFits(cols, i + 1);
    CustomerFits(cols, k + 1);
    OrderFits(cols, k + 1);
  }

  lemma TierOf(cols: Columns, i: nat)
    requires 1 <= i < 10000
    ensures Get(Customer(cols, i), "tier") == Str(TIERS[(i - 1) % 4])
  {
  }

  lemma StatusOf(cols: Columns, i: nat)
    requires 1 <= i < 9000
    ensures Get(Order(cols, i), "status") == Str(STATUSES[(i - 1) % 4])
  {
  }

  /** The tiers and the states take turns, from bronze and from delivered on. */
  lemma RowsTakeTurns(cols: Columns, k: nat, l: nat)
    requires k < 200 && l < 60
    ensures var tier := Get(Customers(cols)[k], "tier");
            && (k % 4 == 0 ==> tier == Str("bronze")) && (k % 4 == 1 ==> tier == Str("silver"))
            && (k % 4 == 2 ==> tier == Str("gold")) && (k % 4 == 3 ==> tier == Str("platinum"))
    ensures var status := Get(Orders(cols)[l], "status");
            && (l % 4 == 0 ==> status == Str("delivered")) && (l % 4 == 1 ==> status == Str("shipped"))
            && (l % 4 == 2 ==> status == Str("processing")) && (l % 4 == 3 ==> status == Str("pending"))
  {
    hide Customer, Order, Get;
    TierOf(cols, k + 1);
    StatusOf(cols, l + 1);
  }

  /** The tables the tools build meet the detector's assumptions, whatever the other columns hold. */
  lemma BuiltTablesAreWellFormed(w: World, cols: Columns)
    requires w.customers == Customers(cols) && w.orders == Orders(cols)
    ensures WellFormed(w)
  {
    hide Keyed, GoodCustomer, GoodOrder, Customers, Orders;
    CustomersFit(cols);
    OrdersFit(cols);
  }
}
