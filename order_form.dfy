/** The checkout form (src/components/OrderForm.tsx): the required fields,
    the bilingual address built from three number fields, the CustomerInfo
    handed to the optional `onSubmit`, the fixed sequence of steps after a
    valid submit, and the order summary it shows above the fields. */
module OrderForm {
  import opened Common
  import opened Text
  import opened Types
  import opened ShopContext

  /** The form's values; an empty string is a field left blank. */
  datatype OrderFormData = OrderFormData(
    name: string,
    phone: string,
    streetNumber: string,
    areaNumber: string,
    villaNumber: string,
    notes: Option<string>)

  function EmptyForm(): OrderFormData
  {
    OrderFormData("", "", "", "", "", None)
  }

  /** `required: true` on name, phone and the three number fields: each
      must be non-empty (white space counts as a value). Notes are free. */
  predicate RequiredFieldsFilled(data: OrderFormData)
  {
    data.name != "" && data.phone != "" && data.streetNumber != "" &&
    data.areaNumber != "" && data.villaNumber != ""
  }

  lemma NotesAreOptional(data: OrderFormData, notes: Option<string>)
    ensures RequiredFieldsFilled(data) <==> RequiredFieldsFilled(data.(notes := notes))
    ensures !RequiredFieldsFilled(EmptyForm())
  {
  }

  // ---------------------------------------------------------------------
  // The composed address

  const StreetLabel: string := "رقم الشارع (Street No.): "
  const AreaLabel: string := "رقم المنطقة (Area No.): "
  const VillaLabel: string := "رقم الفيلا (Villa No.): "
  /** An Arabic comma and a space. */
  const Separator: string := "، "
  const ArabicComma: char := '،'

  /** The address template: street, area and villa numbers, in that order,
      each after its bilingual label, separated by an Arabic comma. */
  function ComposeAddress(street: string, area: string, villa: string): string
  {
    StreetLabel + street + Separator + AreaLabel + area + Separator + VillaLabel + villa
  }

  /** Position of the first `c` in `s`, or `|s|` when there is none. */
  function IndexOf(s: string, c: char): (r: nat)
    ensures r <= |s|
    ensures r < |s| ==> s[r] == c
    ensures forall i :: 0 <= i < r ==> s[i] != c
  {
    if s == [] then 0 else if s[0] == c then 0 else 1 + IndexOf(s[1..], c)
  }

  lemma {:induction false} IndexOfStopsAt(x: string, y: string, c: char)
    requires c !in x
    requires y != [] && y[0] == c
    ensures IndexOf(x + y, c) == |x|
  {
    if x != [] {
      assert (x + y)[1..] == x[1..] + y;
      IndexOfStopsAt(x[1..], y, c);
    }
  }

  /** Reads the three numbers back out of a composed address; None when the
      text does not follow the template. */
  function ParseAddress(s: string): Option<(string, string, string)>
  {
    ParseFields(StreetLabel, AreaLabel, VillaLabel, s)
  }

  /** The parser for a template with the given labels: each of the first two
      fields runs up to the next Arabic comma, the last to the end. */
  function ParseFields(label1: string, label2: string, label3: string, s: string): Option<(string, string, string)>
  {
    if !IsPrefix(label1, s) then None
    else
      var afterLabel1 := s[|label1|..];
      var i := IndexOf(afterLabel1, ArabicComma);
      var afterField1 := afterLabel1[i..];
      if !IsPrefix(Separator + label2, afterField1) then None
      else
        var afterLabel2 := afterField1[|Separator + label2|..];
        var j := IndexOf(afterLabel2, ArabicComma);
        var afterField2 := afterLabel2[j..];
        if !IsPrefix(Separator + label3, afterField2) then None
        else Some((afterLabel1[..i], afterLabel2[..j], afterField2[|Separator + label3|..]))
  }

  /** Whatever the labels, the parser reads back the three fields of the
      template as long as the first two hold no Arabic comma. */
  lemma ParseFieldsRoundTrip(label1: string, label2: string, label3: string, a: string, b: string, c: string)
    requires ArabicComma !in a && ArabicComma !in b
    ensures ParseFields(label1, label2, label3, label1 + a + Separator + label2 + b + Separator + label3 + c) == Some((a, b, c))
  {
    var s := label1 + a + Separator + label2 + b + Separator + label3 + c;
    var tail2 := (Separator + label3) + c;
    var tail1 := (Separator + label2) + (b + tail2);
    assert s == label1 + (a + tail1);
    assert s[..|label1|] == label1;
    var afterLabel1 := s[|label1|..];
    assert afterLabel1 == a + tail1;
    assert Separator[0] == ArabicComma;
    IndexOfStopsAt(a, tail1, ArabicComma);
    assert afterLabel1[..|a|] == a;
    var afterField1 := afterLabel1[|a|..];
    assert afterField1 == tail1;
    assert tail1[..|Separator + label2|] == Separator + label2;
    var afterLabel2 := afterField1[|Separator + label2|..];
    assert afterLabel2 == b + tail2;
    IndexOfStopsAt(b, tail2, ArabicComma);
    assert afterLabel2[..|b|] == b;
    var afterField2 := afterLabel2[|b|..];
    assert afterField2 == tail2;
    assert tail2[..|Separator + label3|] == Separator + label3;
    assert afterField2[|Separator + label3|..] == c;
  }

  /** The three numbers can be read back from the composed address as long
      as the street and area numbers hold no Arabic comma: the template
      loses nothing and keeps the order street, area, villa. */
  lemma ComposedAddressRoundTrip(street: string, area: string, villa: string)
    requires ArabicComma !in street && ArabicComma !in area
    ensures ParseAddress(ComposeAddress(street, area, villa)) == Some((street, area, villa))
  {
    ParseFieldsRoundTrip(StreetLabel, AreaLabel, VillaLabel, street, area, villa);
  }

  /** The record handed to `onSubmit`: name and phone as typed, the
      composed address, and no notes. */
  function BuildCustomerInfo(data: OrderFormData): (r: CustomerInfo)
    ensures r.name == data.name && r.phone == data.phone
  {
    CustomerInfo(data.name, data.phone, ComposeAddress(data.streetNumber, data.areaNumber, data.villaNumber))
  }

  /** Notes never reach the CustomerInfo, and the three numbers can be
      recovered from its address. */
  lemma CustomerInfoCarriesForm(data: OrderFormData, notes: Option<string>)
    requires ArabicComma !in data.streetNumber && ArabicComma !in data.areaNumber
    ensures BuildCustomerInfo(data.(notes := notes)) == BuildCustomerInfo(data)
    ensures ParseAddress(BuildCustomerInfo(data).address) == Some((data.streetNumber, data.areaNumber, data.villaNumber))
  {
    ComposedAddressRoundTrip(data.streetNumber, data.areaNumber, data.villaNumber);
  }

  // ---------------------------------------------------------------------
  // What the form shows

  /** `if (cartItems.length === 0) return null`. */
  predicate Renders(items: seq<CartItem>)
  {
    |items| > 0
  }

  /** The form renders exactly when its summary has a line; a form that
      does not render stands for an empty cart whose total is 0. */
  lemma RendersIffSummaryNonEmpty(items: seq<CartItem>)
    ensures Renders(items) <==> |SummaryLines(items)| > 0
    ensures !Renders(items) ==> CartTotal(items) == 0
  {
  }

  /** The amount on each summary line: price × quantity. */
  function SummaryLines(items: seq<CartItem>): (r: seq<int>)
    ensures |r| == |items|
    ensures forall k :: 0 <= k < |items| ==> r[k] == items[k].product.price * items[k].quantity
  {
    if items == [] then [] else [items[0].product.price * items[0].quantity] + SummaryLines(items[1..])
  }

  /** The summary lines add up to the total shown beneath them. */
  lemma {:induction false} SummaryAddsUpToTotal(items: seq<CartItem>)
    ensures Sum(SummaryLines(items)) == CartTotal(items)
  {
    if items != [] {
      SummaryAddsUpToTotal(items[1..]);
      assert SummaryLines(items)[1..] == SummaryLines(items[1..]);
    }
  }

  // ---------------------------------------------------------------------
  // Submitting

  /** The callbacks the form invokes, in order. */
  datatype Callback = SubmitCalled(info: CustomerInfo) | CancelCalled

  /** The steps after a valid submit: `onSubmit(customerInfo)` if given,
      then `onCancel()` if the form is inline and one is given. */
  function AfterSubmit(data: OrderFormData, inline: bool, hasOnSubmit: bool, hasOnCancel: bool): (r: seq<Callback>)
    ensures |r| <= 2
    ensures (SubmitCalled(BuildCustomerInfo(data)) in r) <==> hasOnSubmit
    ensures (CancelCalled in r) <==> inline && hasOnCancel
    ensures hasOnSubmit ==> r[0] == SubmitCalled(BuildCustomerInfo(data))
    ensures forall c :: c in r ==> c == SubmitCalled(BuildCustomerInfo(data)) || c == CancelCalled
  {
    (if hasOnSubmit then [SubmitCalled(BuildCustomerInfo(data))] else []) +
    (if inline && hasOnCancel then [CancelCalled] else [])
  }

  /** One mounted form: how it is wired, whether its dialog is open and
      what its fields hold. */
  class Form {
    const inline: bool
    const hasOnSubmit: bool
    const hasOnCancel: bool
    var isOpen: bool
    var values: OrderFormData

    constructor(inline: bool, hasOnSubmit: bool, hasOnCancel: bool)
      ensures this.inline == inline && this.hasOnSubmit == hasOnSubmit && this.hasOnCancel == hasOnCancel
      ensures !isOpen && values == EmptyForm()
    {
      this.inline := inline;
      this.hasOnSubmit := hasOnSubmit;
      this.hasOnCancel := hasOnCancel;
      isOpen := false;
      values := EmptyForm();
    }

    /** The dialog trigger and its close control (`onOpenChange`). */
    method SetOpen(open: bool)
      modifies this
      ensures isOpen == open && values == old(values)
    {
      isOpen := open;
    }

    /** Typing into the fields. */
    method Edit(data: OrderFormData)
      modifies this
      ensures values == data && isOpen == old(isOpen)
    {
      values := data;
    }

    /** The submit button: with a blank required field nothing happens
        (the field messages are display only). Otherwise the callbacks run
        as AfterSubmit says, the fields are cleared and the dialog
        closes. The cart is not touched. */
    method Submit() returns (callbacks: seq<Callback>)
      modifies this
      ensures !RequiredFieldsFilled(old(values)) ==>
        callbacks == [] && values == old(values) && isOpen == old(isOpen)
      ensures RequiredFieldsFilled(old(values)) ==>
        callbacks == AfterSubmit(old(values), inline, hasOnSubmit, hasOnCancel) &&
        values == EmptyForm() && !isOpen
    {
      if !RequiredFieldsFilled(values) {
        return [];
      }
      var data := values;
      callbacks := [];
      if hasOnSubmit {
        callbacks := callbacks + [SubmitCalled(BuildCustomerInfo(data))];
      }
      values := EmptyForm();
      isOpen := false;
      if inline && hasOnCancel {
        callbacks := callbacks + [CancelCalled];
      }
    }
  }

  /** Both places that mount the form pass no `onSubmit`, so a valid
      submit never hands the customer's details to anyone; in the cart
      panel it only returns to the cart view. */
  lemma MountedFormsNeverSubmit(data: OrderFormData)
    ensures AfterSubmit(data, true, false, true) == [CancelCalled]
    ensures AfterSubmit(data, true, false, false) == []
  {
  }
}
