/** The daily sales tracker (components/sales/SalesTracker.tsx): a list of
    sales held in component state, newest first; an add-sale form that can
    be shown and hidden; and the summary cards computed from the list.
    Amounts are integer cents. */
module Sales {
  import opened Common

  datatype Sale = Sale(amount: int, items: int, customer: string, paymentMethod: string)

  /** The form's text fields, as typed. */
  datatype SaleForm = SaleForm(amount: string, items: string, customer: string, paymentMethod: string)

  /** The form as it starts and as every submit leaves it (lines 51-56, 74). */
  const EmptyForm: SaleForm := SaleForm("", "", "", "Card")

  const WalkInCustomer: string := "Walk-in Customer"

  /** `formData.customer || 'Walk-in Customer'` (line 68): every recorded
      sale names a customer. */
  function CustomerName(entered: string): (r: string)
    ensures r != ""
    ensures entered != "" ==> r == entered
    ensures entered == "" ==> r == WalkInCustomer
  {
    if entered != "" then entered else WalkInCustomer
  }

  /** The sale `handleSubmit` builds (lines 64-71). `amount` and `items` are
      what `parseFloat` and `parseInt` made of the form's text. */
  function NewSale(form: SaleForm, amount: int, items: int): (r: Sale)
    ensures r.amount == amount && r.items == items
    ensures r.customer == CustomerName(form.customer)
    ensures r.paymentMethod == form.paymentMethod
  {
    Sale(amount, items, CustomerName(form.customer), form.paymentMethod)
  }

  function SaleAmount(sale: Sale): int { sale.amount }
  function SaleItems(sale: Sale): int { sale.items }

  /** `sales.reduce((sum, sale) => sum + sale.amount, 0)` (line 58). */
  function TodayTotal(sales: seq<Sale>): int
  {
    Sum(sales, SaleAmount)
  }

  /** `sales.reduce((sum, sale) => sum + sale.items, 0)` (line 59). */
  function TodayItems(sales: seq<Sale>): int
  {
    Sum(sales, SaleItems)
  }

  /** Recording a sale in front of the list adds its amount to the revenue
      card, its items to the items card, and one to the transaction count
      (line 103). */
  lemma PrependUpdatesSummary(sale: Sale, sales: seq<Sale>)
    ensures TodayTotal([sale] + sales) == sale.amount + TodayTotal(sales)
    ensures TodayItems([sale] + sales) == sale.items + TodayItems(sales)
    ensures |[sale] + sales| == |sales| + 1
  {
    SumPrepend(sale, sales, SaleAmount);
    SumPrepend(sale, sales, SaleItems);
  }

  /** What an average card shows: `0` when there are no sales, and
      otherwise the quotient `total / count`, which is left as a pair. */
  datatype Average = NoSales | PerSale(total: int, count: nat)

  /** `sales.length > 0 ? todayItems / sales.length : 0` (line 116). */
  function AverageItems(sales: seq<Sale>): (r: Average)
    ensures r.PerSale? <==> |sales| > 0
    ensures r.PerSale? ==> r.count == |sales| > 0 && r.total == TodayItems(sales)
  {
    if |sales| > 0 then PerSale(TodayItems(sales), |sales|) else NoSales
  }

  /** `sales.length > 0 ? todayTotal / sales.length : 0` (line 128). */
  function AverageOrderValue(sales: seq<Sale>): (r: Average)
    ensures r.PerSale? <==> |sales| > 0
    ensures r.PerSale? ==> r.count == |sales| > 0 && r.total == TodayTotal(sales)
  {
    if |sales| > 0 then PerSale(TodayTotal(sales), |sales|) else NoSales
  }

  /** The average order value lies between the smallest and the largest
      amount: `lo <= total / count <= hi`, stated without division. */
  lemma AverageOrderValueBounds(sales: seq<Sale>, lo: int, hi: int)
    requires forall i :: 0 <= i < |sales| ==> lo <= sales[i].amount <= hi
    ensures AverageOrderValue(sales).PerSale? ==>
      lo * AverageOrderValue(sales).count <= AverageOrderValue(sales).total <= hi * AverageOrderValue(sales).count
  {
    SumBounds(sales, SaleAmount, lo, hi);
  }

  /** The average number of items per sale lies between the smallest and
      the largest item count, stated without division. */
  lemma AverageItemsBounds(sales: seq<Sale>, lo: int, hi: int)
    requires forall i :: 0 <= i < |sales| ==> lo <= sales[i].items <= hi
    ensures AverageItems(sales).PerSale? ==>
      lo * AverageItems(sales).count <= AverageItems(sales).total <= hi * AverageItems(sales).count
  {
    SumBounds(sales, SaleItems, lo, hi);
  }

  /** The three sales the tracker starts with (lines 21-46). */
  const MockSales: seq<Sale> := [
    Sale(4599, 3, "John Doe", "Card"),
    Sale(2350, 1, "Sarah Wilson", "Cash"),
    Sale(7825, 5, "Mike Johnson", "Card")
  ]

  /** On the starting list: $147.74 of revenue over 9 items in 3 sales. */
  lemma MockSalesSummary()
    ensures TodayTotal(MockSales) == 14774 && TodayItems(MockSales) == 9 && |MockSales| == 3
  {
    var m := MockSales;
    assert |m[..1]| == 1 && m[..1][..0] == [] && m[..1][0] == m[0];
    assert Sum(m[..1], SaleAmount) == 4599 && Sum(m[..1], SaleItems) == 3;
    assert |m[..2]| == 2 && m[..2][..1] == m[..1] && m[..2][1] == m[1];
    assert Sum(m[..2], SaleAmount) == 6949 && Sum(m[..2], SaleItems) == 4;
    assert m[..2] == m[..|m| - 1];
  }

  /** The form field an `onChange` handler edits (lines 157, 167, 177, 186). */
  datatype FormField = AmountField | ItemsField | CustomerField | PaymentField

  function WithField(form: SaleForm, field: FormField, value: string): (r: SaleForm)
    ensures field == AmountField ==> r == form.(amount := value)
    ensures field == ItemsField ==> r == form.(items := value)
    ensures field == CustomerField ==> r == form.(customer := value)
    ensures field == PaymentField ==> r == form.(paymentMethod := value)
  {
    match field
    case AmountField => form.(amount := value)
    case ItemsField => form.(items := value)
    case CustomerField => form.(customer := value)
    case PaymentField => form.(paymentMethod := value)
  }

  /** The `SalesTracker` component's state. */
  class SalesTracker {
    var sales: seq<Sale>
    var showForm: bool
    var formData: SaleForm

    constructor ()
      ensures sales == MockSales && !showForm && formData == EmptyForm
    {
      sales := MockSales;
      showForm := false;
      formData := EmptyForm;
    }

    /** `handleSubmit` (lines 61-76): prepend the new sale, reset the form,
      close it. */
    method HandleSubmit(amount: int, items: int)
      modifies this
      ensures sales == [NewSale(old(formData), amount, items)] + old(sales)
      ensures formData == EmptyForm && !showForm
      ensures TodayTotal(sales) == amount + TodayTotal(old(sales))
      ensures TodayItems(sales) == items + TodayItems(old(sales))
    {
      var newSale := NewSale(formData, amount, items);
      sales := [newSale] + sales;
      formData := EmptyForm;
      showForm := false;
      PrependUpdatesSummary(newSale, old(sales));
    }

    /** The "Add Sale" button (line 87). */
    method ToggleForm()
      modifies this
      ensures showForm == !old(showForm)
      ensures sales == old(sales) && formData == old(formData)
    {
      showForm := !showForm;
    }

    /** The Cancel button (line 196). */
    method CancelForm()
      modifies this
      ensures !showForm
      ensures sales == old(sales) && formData == old(formData)
    {
      showForm := false;
    }

    /** Typing into one form field. */
    method EditField(field: FormField, value: string)
      modifies this
      ensures formData == WithField(old(formData), field, value)
      ensures sales == old(sales) && showForm == old(showForm)
    {
      formData := WithField(formData, field, value);
    }
  }
}
