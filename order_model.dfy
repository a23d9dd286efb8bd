/**
 * The Order record: its enum domains, its schema defaults and the
 * six-character order-code generator.
 */
module OrderModel {
  import opened Wrappers

  datatype OrderStatus = PENDING | WASHING | DONE | PICKED_UP | CANCELLED

  datatype Package = BASIC | STANDARD | PREMIUM

  /** Idempotence guards for the two customer e-mails. */
  datatype EmailSent = EmailSent(created: bool, completed: bool)

  datatype Order = Order(
    orderCode: string,
    customerEmail: string,
    customerName: string,
    customerPhone: string,
    package: Package,
    price: int,
    machineId: Option<string>,
    status: OrderStatus,
    progress: int,
    currentPhase: string,
    mode: string,
    createdAt: nat,
    startedAt: Option<nat>,
    completedAt: Option<nat>,
    pickedUpAt: Option<nat>,
    emailSent: EmailSent)

  const DefaultPrice: int := 30000

  /** The schema's enum check on `package`. */
  function ParsePackage(s: string): (r: Option<Package>)
    ensures r == Some(BASIC) <==> s == "BASIC"
    ensures r == Some(STANDARD) <==> s == "STANDARD"
    ensures r == Some(PREMIUM) <==> s == "PREMIUM"
  {
    if s == "BASIC" then Some(BASIC)
    else if s == "STANDARD" then Some(STANDARD)
    else if s == "PREMIUM" then Some(PREMIUM)
    else None
  }

  /** A freshly constructed order: every field the caller does not give takes its schema default. */
  function NewOrder(code: string, email: string, name: string, phone: string, pkg: Package, price: int, now: nat): (o: Order)
    ensures o.orderCode == code && o.customerEmail == email && o.package == pkg && o.price == price
    ensures o.status == PENDING && o.progress == 0 && o.currentPhase == "PENDING" && o.mode == "NORMAL"
    ensures o.machineId == None && o.createdAt == now
    ensures o.startedAt == None && o.completedAt == None && o.pickedUpAt == None
    ensures o.emailSent == EmailSent(false, false)
  {
    Order(code, email, name, phone, pkg, price, None, PENDING, 0, "PENDING", "NORMAL",
          now, None, None, None, EmailSent(false, false))
  }

  const Alphabet: string := "ABCDEFGHIJKLMNOPQRSTUVWXYZ0123456789"
  const CodeLength: nat := 6

  /** A value of `Math.floor(Math.random() * 36)`: an index into the alphabet. */
  type CharIndex = i: int | 0 <= i < 36

  predicate IsCodeChar(c: char) {
    'A' <= c <= 'Z' || '0' <= c <= '9'
  }

  /** What the generator can produce, and what the store keeps as order codes. */
  predicate IsOrderCode(s: string) {
    |s| == CodeLength && forall i :: 0 <= i < |s| ==> IsCodeChar(s[i])
  }

  /** The alphabet is exactly the 36 upper-case letters and digits, each at its own index. */
  lemma AlphabetChars(k: CharIndex)
    ensures |Alphabet| == 36
    ensures k < 26 ==> Alphabet[k] == ('A' as int + k) as char
    ensures 26 <= k ==> Alphabet[k] == ('0' as int + k - 26) as char
    ensures IsCodeChar(Alphabet[k])
  {
  }

  /** Every upper-case letter and digit is drawn by some index. */
  lemma {:induction false} EveryCodeCharIsDrawn(c: char)
    requires IsCodeChar(c)
    ensures exists k: CharIndex :: Alphabet[k] == c
  {
    var k: CharIndex := if 'A' <= c <= 'Z' then c as int - 'A' as int else c as int - '0' as int + 26;
    AlphabetChars(k);
    assert Alphabet[k] == c;
  }

  /** `Order.generateOrderCode()`, with the six random draws given as input. */
  method GenerateOrderCode(rolls: seq<CharIndex>) returns (code: string)
    requires |rolls| == CodeLength
    ensures |code| == CodeLength
    ensures forall i :: 0 <= i < CodeLength ==> code[i] == Alphabet[rolls[i]]
    ensures IsOrderCode(code)
  {
    code := "";
    for i := 0 to CodeLength
      invariant |code| == i
      invariant forall j :: 0 <= j < i ==> code[j] == Alphabet[rolls[j]] && IsCodeChar(code[j])
    {
      AlphabetChars(rolls[i]);
      code := code + [Alphabet[rolls[i]]];
    }
  }

  /** The code the generator builds from a given sequence of draws (its specification). */
  function CodeOf(rolls: seq<CharIndex>): (code: string)
    requires |rolls| == CodeLength
    ensures IsOrderCode(code)
    ensures forall i :: 0 <= i < CodeLength ==> code[i] == Alphabet[rolls[i]]
  {
    var code := seq(CodeLength, i requires 0 <= i < CodeLength => Alphabet[rolls[i]]);
    forall i | 0 <= i < CodeLength ensures IsCodeChar(code[i]) {
      AlphabetChars(rolls[i]);
    }
    code
  }

  /** Every well-formed order code is produced by some six draws: the generator's range is all of them. */
  lemma {:induction false} EveryOrderCodeIsGenerated(code: string)
    requires IsOrderCode(code)
    ensures exists rolls: seq<CharIndex> :: |rolls| == CodeLength && CodeOf(rolls) == code
  {
    var rolls: seq<CharIndex> := [];
    for i := 0 to CodeLength
      invariant |rolls| == i
      invariant forall j :: 0 <= j < i ==> Alphabet[rolls[j]] == code[j]
    {
      EveryCodeCharIsDrawn(code[i]);
      var k: CharIndex :| Alphabet[k] == code[i];
      rolls := rolls + [k];
    }
    assert CodeOf(rolls) == code;
  }
}
