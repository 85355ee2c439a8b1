/** Server-side invoice totals in checked 64-bit cents. */
module Pricing {
  import opened Common

  const MAX_LINE_ITEMS: nat := 100
  const MAX_INVOICE_TOTAL_CENTS: int := 99_999_999
  const MAX_DESCRIPTION: nat := 500

  // ----- Text fields

  /** Unicode White_Space, which trimming removes. */
  predicate IsSpace(c: char) {
    || '\U{9}' <= c <= '\U{D}' || c == '\U{20}' || c == '\U{85}' || c == '\U{A0}' || c == '\U{1680}'
    || '\U{2000}' <= c <= '\U{200A}' || c == '\U{2028}' || c == '\U{2029}' || c == '\U{202F}' || c == '\U{205F}'
    || c == '\U{3000}'
  }

  /** Unicode general category Cc. */
  predicate IsControl(c: char) {
    c <= '\U{1F}' || '\U{7F}' <= c <= '\U{9F}'
  }

  /** The two classes by code point: White_Space, and the C0 and C1 controls with DEL. */
  lemma ClassesAsWritten(c: char)
    ensures var n := c as int;
            && (IsControl(c) <==> n <= 31 || 127 <= n <= 159)
            && (IsSpace(c) <==>
                  9 <= n <= 13 || n in {32, 133, 160, 5760, 8232, 8233, 8239, 8287, 12288} || 8192 <= n <= 8202)
  {
  }

  function TrimStart(raw: string): string {
    if raw != [] && IsSpace(raw[0]) then TrimStart(raw[1..]) else raw
  }

  function TrimEnd(raw: string): string {
    if raw != [] && IsSpace(raw[|raw| - 1]) then TrimEnd(raw[..|raw| - 1]) else raw
  }

  function TextField(raw: string, maxChars: nat): (value: Option<string>)
    ensures value.Some? ==> 1 <= |value.value| <= maxChars && forall c :: c in value.value ==> !IsControl(c)
  {
    var value := TrimEnd(TrimStart(raw));
    if value == [] || |value| > maxChars then None
    else if exists c :: c in value && IsControl(c) then None
    else Some(value)
  }

  /** `value` is `raw` without the spaces around it, and starts at `start`. */
  predicate TrimmedAt(raw: string, value: string, start: nat) {
    && start + |value| <= |raw| && raw[start..start + |value|] == value
    && (forall k :: 0 <= k < start ==> IsSpace(raw[k]))
    && (forall k :: start + |value| <= k < |raw| ==> IsSpace(raw[k]))
    && (value != [] ==> !IsSpace(value[0]) && !IsSpace(value[|value| - 1]))
  }

  lemma {:induction false} TrimEndTrims(raw: string)
    requires raw != [] ==> !IsSpace(raw[0])
    ensures TrimmedAt(raw, TrimEnd(raw), 0)
  {
    if raw != [] && IsSpace(raw[|raw| - 1]) {
      TrimEndTrims(raw[..|raw| - 1]);
    }
  }

  lemma {:induction false} TrimFindsStart(raw: string) returns (start: nat)
    ensures TrimmedAt(raw, TrimEnd(TrimStart(raw)), start)
  {
    if raw != [] && IsSpace(raw[0]) {
      var rest := raw[1..];
      start := TrimFindsStart(rest);
      var value := TrimEnd(TrimStart(rest));
      assert forall k :: 1 <= k < |raw| ==> raw[k] == rest[k - 1];
      assert raw[start + 1..start + 1 + |value|] == rest[start..start + |value|];
      start := start + 1;
    } else {
      start := 0;
      TrimEndTrims(raw);
    }
  }

  lemma TrimIsUnique(raw: string, value: string, start: nat, value': string, start': nat)
    requires TrimmedAt(raw, value, start) && TrimmedAt(raw, value', start') && value != []
    ensures value == value'
  {
    assert raw[start] == value[0] && raw[start + |value| - 1] == value[|value| - 1];
    if value' != [] {
      assert raw[start'] == value'[0] && raw[start' + |value'| - 1] == value'[|value'| - 1];
    }
  }

  /** A text is accepted, as what is left without the spaces around it, iff that has 1 to `maxChars` characters and no
      control character. */
  lemma TextFieldIff(raw: string, maxChars: nat, value: string)
    ensures TextField(raw, maxChars) == Some(value) <==>
            && (exists start :: TrimmedAt(raw, value, start))
            && 1 <= |value| <= maxChars
            && forall c :: c in value ==> !IsControl(c)
  {
    var trimmed := TrimEnd(TrimStart(raw));
    var start := TrimFindsStart(raw);
    if value != [] {
      if start' :| TrimmedAt(raw, value, start') {
        TrimIsUnique(raw, value, start', trimmed, start);
      }
    }
  }

  // ----- Pricing

  datatype LineItemInput = LineItemInput(description: string, quantity: I64, unitAmount: I64)

  datatype PricedLineItem = PricedLineItem(description: string, quantity: I64, unitAmount: I64, amount: I64)

  datatype PricedInvoice = PricedInvoice(lineItems: seq<PricedLineItem>, total: I64)

  datatype Fault =
    | LineItemCount
    | Description(index: nat)
    | Quantity(index: nat)
    | UnitAmount(index: nat)
    | LineAmount(index: nat)
    | TotalTooLarge
    | TotalIsZero

  /** Amounts and totals in unbounded arithmetic. */
  function Amount(item: LineItemInput): int {
    item.quantity * item.unitAmount
  }

  function ExactTotal(items: seq<LineItemInput>): int {
    if items == [] then 0
    else
      var last := items[|items| - 1];
      ExactTotal(items[..|items| - 1]) + Amount(last)
  }

  predicate WellFormed(item: LineItemInput) {
    TextField(item.description, MAX_DESCRIPTION).Some? && item.quantity > 0 && item.unitAmount >= 0
  }

  /** What can be invoiced, in unbounded arithmetic. */
  ghost predicate Payable(items: seq<LineItemInput>) {
    && 1 <= |items| <= MAX_LINE_ITEMS
    && (forall k :: 0 <= k < |items| ==> WellFormed(items[k]))
    && 1 <= ExactTotal(items) <= MAX_INVOICE_TOTAL_CENTS
  }

  lemma ProductIsNonNegative(item: LineItemInput)
    requires item.quantity > 0 && item.unitAmount >= 0
    ensures Amount(item) >= 0
  {
  }

  /** What item k is refused for when the items before it are fine, in unbounded arithmetic. */
  function FaultAt(items: seq<LineItemInput>, k: nat): Option<Fault>
    requires k < |items|
  {
    var item := items[k];
    if TextField(item.description, MAX_DESCRIPTION).None? then Some(Description(k))
    else if item.quantity <= 0 then Some(Quantity(k))
    else if item.unitAmount < 0 then Some(UnitAmount(k))
    else if Amount(item) > MAX_INVOICE_TOTAL_CENTS then Some(LineAmount(k))
    else if ExactTotal(items[..k + 1]) > MAX_INVOICE_TOTAL_CENTS then Some(TotalTooLarge)
    else None
  }

  ghost predicate Fine(items: seq<LineItemInput>, n: nat)
    requires n <= |items|
  {
    forall k :: 0 <= k < n ==> FaultAt(items, k).None?
  }

  lemma TotalStep(items: seq<LineItemInput>, k: nat)
    requires k < |items|
    ensures ExactTotal(items[..k + 1]) == ExactTotal(items[..k]) + Amount(items[k])
  {
    assert items[..k + 1][..k] == items[..k];
  }

  lemma EmptyTotal(items: seq<LineItemInput>)
    ensures ExactTotal(items[..0]) == 0
  {
  }

  /** Well-formed amounts are not negative, so no part of a total exceeds the whole. */
  lemma {:induction false} PartsFit(items: seq<LineItemInput>, k: nat, n: nat)
    requires k <= n <= |items| && forall j :: 0 <= j < n ==> WellFormed(items[j])
    ensures 0 <= ExactTotal(items[..k]) <= ExactTotal(items[..n])
    decreases n
  {
    if n > 0 {
      TotalStep(items, n - 1);
      ProductIsNonNegative(items[n - 1]);
      if k < n {
        PartsFit(items, k, n - 1);
      } else {
        PartsFit(items, n - 1, n - 1);
      }
    }
  }

  lemma FineIffPayable(items: seq<LineItemInput>)
    requires 1 <= |items| <= MAX_LINE_ITEMS
    ensures Payable(items) <==> Fine(items, |items|) && ExactTotal(items) != 0
  {
    assert items[..|items|] == items;
    if forall k :: 0 <= k < |items| ==> WellFormed(items[k]) {
      forall k | 0 <= k < |items|
        ensures ExactTotal(items[..k + 1]) <= ExactTotal(items)
        ensures Amount(items[k]) <= ExactTotal(items)
      {
        PartsFit(items, k + 1, |items|);
        PartsFit(items, k, k);
        TotalStep(items, k);
      }
      PartsFit(items, 0, |items|);
      if Fine(items, |items|) {
        assert FaultAt(items, |items| - 1).None?;
      }
    } else {
      var k :| 0 <= k < |items| && !WellFormed(items[k]);
      assert FaultAt(items, k).Some?;
    }
  }

  predicate IsLine(line: PricedLineItem, item: LineItemInput) {
    && Some(line.description) == TextField(item.description, MAX_DESCRIPTION)
    && line.quantity == item.quantity && line.unitAmount == item.unitAmount && line.amount == Amount(item)
  }

  lemma LineAsWritten(line: PricedLineItem, item: LineItemInput)
    ensures IsLine(line, item) <==>
              && Some(line.description) == TextField(item.description, 500)
              && line.quantity == item.quantity && line.unitAmount == item.unitAmount
              && line.amount == item.quantity * item.unitAmount
  {
  }

  lemma LinesAsWritten(items: seq<LineItemInput>, lines: seq<PricedLineItem>)
    requires |lines| == |items| && forall k :: 0 <= k < |items| ==> IsLine(lines[k], items[k])
    ensures forall k :: 0 <= k < |items| ==>
              && Some(lines[k].description) == TextField(items[k].description, 500)
              && lines[k].quantity == items[k].quantity
              && lines[k].unitAmount == items[k].unitAmount
              && lines[k].amount == items[k].quantity * items[k].unitAmount
  {
    forall k | 0 <= k < |items| ensures lines[k].amount == items[k].quantity * items[k].unitAmount {
      LineAsWritten(lines[k], items[k]);
    }
  }

  lemma PayableAsWritten(items: seq<LineItemInput>)
    ensures Payable(items) <==>
              && 1 <= |items| <= 100
              && (forall k :: 0 <= k < |items| ==>
                    TextField(items[k].description, 500).Some? && items[k].quantity >= 1 && items[k].unitAmount >= 0)
              && 1 <= ExactTotal(items) <= 99_999_999
  {
  }

  lemma FaultRefuses(items: seq<LineItemInput>, k: nat)
    requires 1 <= |items| <= MAX_LINE_ITEMS && k < |items| && Fine(items, k) && FaultAt(items, k).Some?
    ensures !Payable(items)
  {
    FineIffPayable(items);
  }

  lemma FinePays(items: seq<LineItemInput>)
    requires 1 <= |items| <= MAX_LINE_ITEMS && Fine(items, |items|)
    ensures Payable(items) <==> ExactTotal(items) != 0
  {
    FineIffPayable(items);
  }

  /** The exact total is the sum of quantity times unit amount, whatever way the items are taken apart. */
  lemma {:induction false} TotalAddsUp(items: seq<LineItemInput>, more: seq<LineItemInput>)
    ensures ExactTotal([]) == 0
    ensures forall item :: ExactTotal([item]) == item.quantity * item.unitAmount
    ensures ExactTotal(items + more) == ExactTotal(items) + ExactTotal(more)
  {
    forall item ensures ExactTotal([item]) == item.quantity * item.unitAmount {
      assert [item][..0] == [];
    }
    if more == [] {
      assert items + more == items;
    } else {
      var front := more[..|more| - 1];
      TotalAddsUp(items, front);
      assert (items + more)[..|items + more| - 1] == items + front;
    }
  }

  /** Why item k is refused, the items before it being fine, in the order of the checks: its text, its quantity, its
      unit amount, its product, and the total so far, which is held against the maximum of 999,999.99. */
  lemma FaultsAsWritten(items: seq<LineItemInput>, k: nat)
    requires k < |items|
    ensures var (item, total) := (items[k], ExactTotal(items[..k + 1]));
            var text := TextField(item.description, 500).Some?;
            && (FaultAt(items, k) == Some(Description(k)) <==> !text)
            && (FaultAt(items, k) == Some(Quantity(k)) <==> text && item.quantity < 1)
            && (FaultAt(items, k) == Some(UnitAmount(k)) <==> text && item.quantity >= 1 && item.unitAmount < 0)
            && (FaultAt(items, k) == Some(LineAmount(k)) <==>
                  text && item.quantity >= 1 && item.unitAmount >= 0 && item.quantity * item.unitAmount > 99_999_999)
            && (FaultAt(items, k) == Some(TotalTooLarge) <==>
                  text && item.quantity >= 1 && item.unitAmount >= 0 && item.quantity * item.unitAmount <= 99_999_999
                  && total > 99_999_999)
            && (FaultAt(items, k).None? <==>
                  text && item.quantity >= 1 && item.unitAmount >= 0 && item.quantity * item.unitAmount <= 99_999_999
                  && total <= 99_999_999)
  {
  }

  /** One turn of the loop below. */
  method PriceLine(items: seq<LineItemInput>, index: nat, total: I64) returns (r: Result<PricedLineItem, Fault>)
    requires index < |items| && total == ExactTotal(items[..index]) && 0 <= total <= MAX_INVOICE_TOTAL_CENTS
    ensures r.Err? ==> FaultAt(items, index) == Some(r.error) && r.error != LineItemCount && r.error != TotalIsZero
    ensures r.Ok? ==>
              && FaultAt(items, index).None? && IsLine(r.value, items[index]) && 0 <= r.value.amount
              && ExactTotal(items[..index + 1]) == total + r.value.amount <= MAX_INVOICE_TOTAL_CENTS
  {
    hide TextField, ExactTotal;
    var item := items[index];
    TotalStep(items, index);
    var description := TextField(item.description, MAX_DESCRIPTION);
    if description.None? {
      return Err(Description(index));
    }
    if item.quantity <= 0 {
      return Err(Quantity(index));
    }
    if item.unitAmount < 0 {
      return Err(UnitAmount(index));
    }
    ProductIsNonNegative(item);
    var amount := Checked(item.quantity * item.unitAmount);
    if amount.None? || amount.value > MAX_INVOICE_TOTAL_CENTS {
      return Err(LineAmount(index));
    }
    var sum := Checked(total + amount.value);
    if sum.None? || sum.value > MAX_INVOICE_TOTAL_CENTS {
      return Err(TotalTooLarge);
    }
    return Ok(PricedLineItem(description.value, item.quantity, item.unitAmount, amount.value));
  }

  /** Succeeds exactly when there are 1 to 100 items, each with a valid text, a positive quantity and a unit amount that
      is not negative, and the exact total lies in 1 to 99,999,999; then returns exactly that total, and each item with
      its trimmed text and its product. Otherwise the error is the first one, in order of items and of checks. No
      intermediate result wraps. */
  method Price(items: seq<LineItemInput>) returns (r: Result<PricedInvoice, Fault>)
    ensures r.Ok? <==>
              && 1 <= |items| <= 100
              && (forall k :: 0 <= k < |items| ==>
                    TextField(items[k].description, 500).Some? && items[k].quantity >= 1 && items[k].unitAmount >= 0)
              && 1 <= ExactTotal(items) <= 99_999_999
    ensures r.Ok? ==>
              && r.value.total == ExactTotal(items)
              && |r.value.lineItems| == |items|
              && forall k :: 0 <= k < |items| ==>
                   && Some(r.value.lineItems[k].description) == TextField(items[k].description, 500)
                   && r.value.lineItems[k].quantity == items[k].quantity
                   && r.value.lineItems[k].unitAmount == items[k].unitAmount
                   && r.value.lineItems[k].amount == items[k].quantity * items[k].unitAmount
    ensures r == Err(LineItemCount) <==> |items| == 0 || |items| > 100
    ensures r == Err(TotalIsZero) ==> Fine(items, |items|) && ExactTotal(items) == 0
    ensures r.Err? && r.error != LineItemCount && r.error != TotalIsZero ==>
              exists k :: 0 <= k < |items| && Fine(items, k) && FaultAt(items, k) == Some(r.error)
  {
    if |items| == 0 || |items| > MAX_LINE_ITEMS {
      return Err(LineItemCount);
    }
    PayableAsWritten(items);
    hide TextField, ExactTotal, Payable, FaultAt, Amount, WellFormed, IsLine;
    assert ExactTotal(items[..0]) == 0 by { EmptyTotal(items); }
    var total: I64 := 0;
    var lineItems: seq<PricedLineItem> := [];
    for index := 0 to |items|
      invariant Fine(items, index) && total == ExactTotal(items[..index]) && 0 <= total <= MAX_INVOICE_TOTAL_CENTS
      invariant |lineItems| == index
      invariant forall k :: 0 <= k < index ==> IsLine(lineItems[k], items[k])
    {
      var line := PriceLine(items, index, total);
      if line.Err? {
        FaultRefuses(items, index);
        return Err(line.error);
      }
      total := total + line.value.amount;
      lineItems := lineItems + [line.value];
    }
    LinesAsWritten(items, lineItems);
    assert items[..|items|] == items;
    FinePays(items);
    if total == 0 {
      return Err(TotalIsZero);
    }
    return Ok(PricedInvoice(lineItems, total));
  }
}
