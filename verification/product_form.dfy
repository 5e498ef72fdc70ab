/** The rules of the registration view (`Registrar.jsx`): the form validator, the
    stock class of a row, the list of active products, the edit / cancel / submit
    state machine, and the lifetime of the image preview's object URL. */
module ProductForm {
  import opened Wrappers
  import opened Seqs
  import opened Text
  import opened Catalog

  // ---------------------------------------------------------------------------
  // Form fields

  /** A numeric form field: text the user typed, with the number `parseFloat` /
      `parseInt` reads from it (`None` for NaN), or a number `handleEditar` copied
      from a product. */
  datatype Field = Typed(text: string, parsed: Option<int>) | Numeric(value: int)

  /** The empty input. */
  const Empty: Field := Typed("", None)

  /** JavaScript truthiness: the empty string and the number 0 are falsy. */
  predicate Truthy(f: Field) {
    match f
    case Typed(text, _) => |text| > 0
    case Numeric(n) => n != 0
  }

  /** The number the field parses to, `None` standing for NaN. */
  function NumberOf(f: Field): Option<int> {
    match f
    case Typed(_, parsed) => parsed
    case Numeric(n) => Some(n)
  }

  /** `parse(f) <= bound`; every comparison with NaN is false. */
  predicate AtMost(f: Field, bound: int) {
    NumberOf(f).Some? && NumberOf(f).value <= bound
  }

  /** `parse(f) < bound`; every comparison with NaN is false. */
  predicate Below(f: Field, bound: int) {
    NumberOf(f).Some? && NumberOf(f).value < bound
  }

  /** The text `FormData.append` sends for the field. */
  function FieldText(f: Field): string {
    match f
    case Typed(text, _) => text
    case Numeric(n) => IntToString(n)
  }

  // ---------------------------------------------------------------------------
  // Products and their editable copy

  datatype FileRef = FileRef(id: nat)

  /** `formData`. */
  datatype FormData = FormData(
    idProducto: Option<int>,
    nombre: string,
    costo: Field,
    precioVenta: Field,
    stock: Field,
    imagen: Option<FileRef>,
    imagenUrl: string)

  /** The all-empty form the view starts with and returns to. */
  const EmptyForm: FormData := FormData(None, "", Empty, Empty, Empty, None, "")

  // ---------------------------------------------------------------------------
  // validateForm

  /** What counts as "present" in a required field. The view tests truthiness,
      which also rejects a copied number 0; `NonEmpty` only rejects an empty input. */
  datatype Presence = Truthiness | NonEmpty

  predicate Present(f: Field, rule: Presence) {
    match rule
    case Truthiness => Truthy(f)
    case NonEmpty => !(f.Typed? && f.text == "")
  }

  /** The four checks, in the order the validator runs them. */
  datatype Check = NameCheck | CostCheck | PriceCheck | StockCheck

  function Message(c: Check): string {
    match c
    case NameCheck => "El nombre es requerido"
    case CostCheck => "El costo debe ser mayor a 0"
    case PriceCheck => "El precio de venta debe ser mayor a 0"
    case StockCheck => "El stock no puede ser negativo"
  }

  /** Whether check `c` rejects the form. The name check `!nombre.trim()` holds
      exactly when the name is blank (see `NameCheckIsTrim`). */
  predicate Fails(d: FormData, c: Check, rule: Presence) {
    match c
    case NameCheck => IsBlank(d.nombre)
    case CostCheck => !Present(d.costo, rule) || AtMost(d.costo, 0)
    case PriceCheck => !Present(d.precioVenta, rule) || AtMost(d.precioVenta, 0)
    case StockCheck => !Present(d.stock, rule) || Below(d.stock, 0)
  }

  /** The name check is the test that the trimmed name is empty. */
  lemma NameCheckIsTrim(d: FormData, rule: Presence)
    ensures Fails(d, NameCheck, rule) <==> Trim(d.nombre) == ""
  {
  }

  /** The position of a check in the validator's order. */
  function Position(c: Check): nat {
    match c
    case NameCheck => 0
    case CostCheck => 1
    case PriceCheck => 2
    case StockCheck => 3
  }

  /** The validator's push for check `c`: `[c]` when it fails, `[]` otherwise. */
  function IfFails(d: FormData, c: Check, rule: Presence): seq<Check> {
    if Fails(d, c, rule) then [c] else []
  }

  /** The failing checks, pushed one after another in the order name, cost, sale
      price, stock: each failing one once, in strictly increasing position. */
  function FailedChecks(d: FormData, rule: Presence): (r: seq<Check>)
    ensures forall c :: c in r <==> Fails(d, c, rule)
    ensures forall i, j :: 0 <= i < j < |r| ==> Position(r[i]) < Position(r[j])
  {
    IfFails(d, NameCheck, rule) + IfFails(d, CostCheck, rule)
    + IfFails(d, PriceCheck, rule) + IfFails(d, StockCheck, rule)
  }

  /** Presence rules that agree on every check give the same list of failures. */
  lemma FailedChecksAgree(d: FormData, a: Presence, b: Presence)
    requires forall c :: Fails(d, c, a) == Fails(d, c, b)
    ensures FailedChecks(d, a) == FailedChecks(d, b)
  {
    assert IfFails(d, NameCheck, a) == IfFails(d, NameCheck, b);
    assert IfFails(d, CostCheck, a) == IfFails(d, CostCheck, b);
    assert IfFails(d, PriceCheck, a) == IfFails(d, PriceCheck, b);
    assert IfFails(d, StockCheck, a) == IfFails(d, StockCheck, b);
  }

  function Messages(cs: seq<Check>): (r: seq<string>)
    ensures |r| == |cs| && forall i :: 0 <= i < |cs| ==> r[i] == Message(cs[i])
  {
    seq(|cs|, i requires 0 <= i < |cs| => Message(cs[i]))
  }

  datatype Validation = Accepted | Rejected(message: string)

  /** No check fails exactly when each of the four passes. */
  lemma NoneFails(d: FormData, rule: Presence)
    ensures (forall c :: !Fails(d, c, rule)) <==>
      && !Fails(d, NameCheck, rule) && !Fails(d, CostCheck, rule)
      && !Fails(d, PriceCheck, rule) && !Fails(d, StockCheck, rule)
  {
    if !Fails(d, NameCheck, rule) && !Fails(d, CostCheck, rule)
      && !Fails(d, PriceCheck, rule) && !Fails(d, StockCheck, rule) {
      forall c ensures !Fails(d, c, rule) {
        match c
        case NameCheck =>
        case CostCheck =>
        case PriceCheck =>
        case StockCheck =>
      }
    }
  }

  /** The validator under a presence rule: every failing check's message, joined by
      ". ", or acceptance when none fails. */
  function Validate(d: FormData, rule: Presence): (r: Validation)
    ensures r.Accepted? <==> forall c :: !Fails(d, c, rule)
    ensures r.Rejected? ==>
      && r.message == Join(Messages(FailedChecks(d, rule)), ". ")
      && |r.message| > 0
      && Message(FailedChecks(d, rule)[0]) <= r.message
  {
    var failed := FailedChecks(d, rule);
    if |failed| > 0 then Rejected(Join(Messages(failed), ". "))
    else
      assert forall c :: !Fails(d, c, rule) by {
        forall c ensures !Fails(d, c, rule) {
          assert c !in failed;
        }
      }
      Accepted
  }

  /** The validator accepts exactly when each of the four checks passes. */
  lemma AcceptedIff(d: FormData, rule: Presence)
    ensures Validate(d, rule).Accepted? <==>
      && !Fails(d, NameCheck, rule) && !Fails(d, CostCheck, rule)
      && !Fails(d, PriceCheck, rule) && !Fails(d, StockCheck, rule)
  {
    NoneFails(d, rule);
  }

  /** The same, spelled out field by field. */
  lemma AcceptedIffFields(d: FormData, rule: Presence)
    ensures Validate(d, rule).Accepted? <==>
      && !IsBlank(d.nombre)
      && Present(d.costo, rule) && !AtMost(d.costo, 0)
      && Present(d.precioVenta, rule) && !AtMost(d.precioVenta, 0)
      && Present(d.stock, rule) && !Below(d.stock, 0)
  {
    AcceptedIff(d, rule);
    assert Fails(d, NameCheck, rule) <==> IsBlank(d.nombre);
  }

  /** `validateForm` as the view writes it: presence is truthiness. It accepts
      exactly when the trimmed name is non-empty, cost and sale price are truthy and
      not at most 0, and the stock is truthy and not negative; on rejection the
      banner lists every failing check in order, joined by ". ". */
  function ValidateFormAsWritten(d: FormData): (r: Validation)
    ensures r.Accepted? <==>
      && !IsBlank(d.nombre)
      && Truthy(d.costo) && !AtMost(d.costo, 0)
      && Truthy(d.precioVenta) && !AtMost(d.precioVenta, 0)
      && Truthy(d.stock) && !Below(d.stock, 0)
    ensures r.Rejected? ==> r.message == Join(Messages(FailedChecks(d, Truthiness)), ". ")
  {
    AcceptedIffFields(d, Truthiness);
    Validate(d, Truthiness)
  }

  /** The validator the form is meant to have: a field is present unless its input
      is empty, so a stock of 0 copied from a product passes like a typed "0". */
  function ValidateForm(d: FormData): (r: Validation)
    ensures r.Accepted? <==>
      && !IsBlank(d.nombre)
      && Present(d.costo, NonEmpty) && !AtMost(d.costo, 0)
      && Present(d.precioVenta, NonEmpty) && !AtMost(d.precioVenta, 0)
      && Present(d.stock, NonEmpty) && !Below(d.stock, 0)
    ensures r.Rejected? ==> r.message == Join(Messages(FailedChecks(d, NonEmpty)), ". ")
  {
    AcceptedIffFields(d, NonEmpty);
    Validate(d, NonEmpty)
  }

  /** The two validators differ only on a falsy value that is not an empty input,
      that is a copied number 0; for cost and price that fails anyway, so they differ
      only on a stock of 0 copied from a product. */
  lemma ValidatorsDifferOnlyOnCopiedZeroStock(d: FormData)
    requires d.stock != Numeric(0)
    ensures ValidateFormAsWritten(d) == ValidateForm(d)
  {
    assert Fails(d, NameCheck, Truthiness) == Fails(d, NameCheck, NonEmpty);
    assert Fails(d, CostCheck, Truthiness) == Fails(d, CostCheck, NonEmpty);
    assert Fails(d, PriceCheck, Truthiness) == Fails(d, PriceCheck, NonEmpty);
    assert Fails(d, StockCheck, Truthiness) == Fails(d, StockCheck, NonEmpty);
    FailedChecksAgree(d, Truthiness, NonEmpty);
  }

  /** A product that meets every rule of the form (a non-blank name, positive
      cost and sale price, a stock that is not negative) passes the intended
      validator as soon as it is loaded for editing. */
  lemma EditedValidProductAccepted(st: FormState, p: Product)
    requires !IsBlank(p.nombre)
    requires p.costo.Some? && p.costo.value > 0
    requires p.precioVenta.Some? && p.precioVenta.value > 0
    requires p.stock >= 0
    ensures ValidateForm(Edit(st, p).data) == Accepted
  {
  }

  /** The view's own validator rejects such a product when its stock is 0: the
      copied number 0 is falsy, so editing a sold-out product without retyping its
      stock is refused with the message meant for a negative stock. */
  lemma EditedSoldOutProductRejectedAsWritten(st: FormState, p: Product)
    requires !IsBlank(p.nombre)
    requires p.costo.Some? && p.costo.value > 0
    requires p.precioVenta.Some? && p.precioVenta.value > 0
    requires p.stock == 0
    ensures ValidateFormAsWritten(Edit(st, p).data) == Rejected("El stock no puede ser negativo")
  {
    var d := Edit(st, p).data;
    SoldOutFailsOnlyStock(d);
    assert Messages([StockCheck]) == [Message(StockCheck)];
  }

  /** A copied sold-out product fails the truthiness validator on its stock alone. */
  lemma SoldOutFailsOnlyStock(d: FormData)
    requires !IsBlank(d.nombre)
    requires d.costo.Numeric? && d.costo.value > 0
    requires d.precioVenta.Numeric? && d.precioVenta.value > 0
    requires d.stock == Numeric(0)
    ensures FailedChecks(d, Truthiness) == [StockCheck]
  {
    assert IfFails(d, NameCheck, Truthiness) == [];
    assert IfFails(d, StockCheck, Truthiness) == [StockCheck];
  }

  /** The empty form is refused with all four messages, in order. */
  lemma EmptyFormRejected()
    ensures ValidateForm(EmptyForm) == Rejected(
      Message(NameCheck) + ". " + Message(CostCheck) + ". "
      + Message(PriceCheck) + ". " + Message(StockCheck))
  {
    var all := [NameCheck, CostCheck, PriceCheck, StockCheck];
    EmptyFormFailsAll();
    assert Messages(all) == [Message(NameCheck), Message(CostCheck), Message(PriceCheck), Message(StockCheck)];
    JoinFour(Message(NameCheck), Message(CostCheck), Message(PriceCheck), Message(StockCheck), ". ");
  }

  /** Every check fails on the empty form. */
  lemma EmptyFormFailsAll()
    ensures FailedChecks(EmptyForm, NonEmpty) == [NameCheck, CostCheck, PriceCheck, StockCheck]
  {
    assert IfFails(EmptyForm, NameCheck, NonEmpty) == [NameCheck];
  }

  // ---------------------------------------------------------------------------
  // getStockClass

  datatype StockClass = StockHigh | StockMedium | StockLow

  /** The class of a stock cell: over 20 units, 6 to 20, or at most 5. */
  function StockClassOf(stock: int): (r: StockClass)
    ensures r == StockHigh <==> stock > 20
    ensures r == StockMedium <==> 6 <= stock <= 20
    ensures r == StockLow <==> stock <= 5
  {
    if stock > 20 then StockHigh
    else if stock > 5 then StockMedium
    else StockLow
  }

  /** The CSS class of a stock cell; the three classes have distinct names. */
  function ClassName(c: StockClass): (r: string)
    ensures r == "stock-alto" <==> c == StockHigh
    ensures r == "stock-medio" <==> c == StockMedium
    ensures r == "stock-bajo" <==> c == StockLow
  {
    match c
    case StockHigh => "stock-alto"
    case StockMedium => "stock-medio"
    case StockLow => "stock-bajo"
  }

  function Rank(c: StockClass): nat {
    match c
    case StockLow => 0
    case StockMedium => 1
    case StockHigh => 2
  }

  /** `getStockClass` end to end: the class name of a stock. */
  lemma StockClassNameOf(stock: int)
    ensures ClassName(StockClassOf(stock)) == "stock-alto" <==> stock > 20
    ensures ClassName(StockClassOf(stock)) == "stock-medio" <==> 6 <= stock <= 20
    ensures ClassName(StockClassOf(stock)) == "stock-bajo" <==> stock <= 5
  {
  }

  /** More stock never gives a lower class. */
  lemma StockClassMonotone(a: int, b: int)
    requires a <= b
    ensures Rank(StockClassOf(a)) <= Rank(StockClassOf(b))
  {
  }

  // ---------------------------------------------------------------------------
  // The list of active products

  /** `p.activo !== false`: only an explicit `false` hides a product. */
  predicate IsActive(p: Product) {
    p.activo != Some(false)
  }

  /** The listed and counted products: those not explicitly deactivated, in their
      original order. */
  function ActiveProducts(productos: seq<Product>): (r: seq<Product>)
    ensures IsSubsequence(r, productos)
    ensures forall p :: p in r <==> p in productos && IsActive(p)
    ensures forall p :: multiset(r)[p] == if IsActive(p) then multiset(productos)[p] else 0
    ensures (forall i :: 0 <= i < |productos| ==> productos[i].activo != Some(false)) ==> r == productos
  {
    FilterCount(productos, IsActive);
    Filter(productos, IsActive)
  }

  datatype ListPanel = ProductTable(rows: seq<Product>) | NoProductsWarning | NoPanel

  /** Below the form: the table of active products when there is one, the "no
      active products" warning when there is none and nothing is loading. */
  function ListPanelOf(productos: seq<Product>, loading: bool): (r: ListPanel)
    ensures r.ProductTable? <==> |ActiveProducts(productos)| > 0
    ensures r.ProductTable? ==> r.rows == ActiveProducts(productos)
    ensures r.NoProductsWarning? <==> |ActiveProducts(productos)| == 0 && !loading
  {
    var active := ActiveProducts(productos);
    if |active| > 0 then ProductTable(active)
    else if !loading then NoProductsWarning
    else NoPanel
  }

  /** A deactivated product never appears in the table. */
  lemma DeactivatedNotListed(productos: seq<Product>, loading: bool, p: Product)
    requires p.activo == Some(false)
    ensures ListPanelOf(productos, loading).ProductTable? ==> p !in ListPanelOf(productos, loading).rows
  {
  }

  // ---------------------------------------------------------------------------
  // Object URLs of the image preview

  /** An object URL created by `URL.createObjectURL`. */
  type Handle = nat

  /** The browser's object-URL registry, as far as this view uses it: the handles
      still live, and the next fresh one. */
  datatype Blobs = Blobs(live: set<Handle>, next: Handle)

  datatype Created = Created(handle: Handle, blobs: Blobs)

  /** `URL.createObjectURL`: a handle never handed out before, now live. */
  function CreateObjectUrl(b: Blobs): (r: Created)
    ensures (forall h :: h in b.live ==> h < b.next) ==>
      && r.handle !in b.live
      && forall h :: h in r.blobs.live ==> h < r.blobs.next
    ensures r.blobs.live == b.live + {r.handle}
    ensures r.blobs.next > r.handle
  {
    Created(b.next, Blobs(b.live + {b.next}, b.next + 1))
  }

  /** `URL.revokeObjectURL`: the handle is no longer live; revoking twice is harmless. */
  function RevokeObjectUrl(b: Blobs, h: Handle): (r: Blobs)
    ensures r.live == b.live - {h} && r.next == b.next
  {
    b.(live := b.live - {h})
  }

  // ---------------------------------------------------------------------------
  // The form state machine

  /** The view's state: the form, the edit-mode flag, the preview handle, the two
      banners, and the registry the preview handles live in. */
  datatype FormState = FormState(
    data: FormData,
    modoEdicion: bool,
    preview: Option<Handle>,
    error: string,
    success: string,
    blobs: Blobs)

  function PreviewHandles(preview: Option<Handle>): set<Handle> {
    if preview.Some? then {preview.value} else {}
  }

  /** The preview discipline: the live handles are exactly the current preview (so
      at most one), and every live handle was handed out by the registry. */
  predicate PreviewDiscipline(st: FormState) {
    && st.blobs.live == PreviewHandles(st.preview)
    && forall h :: h in st.blobs.live ==> h < st.blobs.next
  }

  /** The view as mounted. */
  function Initial(): (r: FormState)
    ensures PreviewDiscipline(r) && !r.modoEdicion && r.data == EmptyForm
    ensures r.preview.None? && r.blobs.live == {} && r.error == "" && r.success == ""
  {
    FormState(EmptyForm, false, None, "", "", Blobs({}, 0))
  }

  /** `if (preview) URL.revokeObjectURL(preview)`. */
  function ReleasePreview(st: FormState): (b: Blobs)
    ensures st.preview.Some? ==> b.live == st.blobs.live - {st.preview.value}
    ensures st.preview.None? ==> b == st.blobs
    ensures b.next == st.blobs.next
  {
    if st.preview.Some? then RevokeObjectUrl(st.blobs, st.preview.value) else st.blobs
  }

  /** The cleanup of the effect keyed on `preview`: when the preview changed, the
      cleanup registered for the old one revokes it (again). */
  function PreviewEffect(prior: Option<Handle>, st: FormState): (r: FormState)
    ensures r == st.(blobs := r.blobs)
    ensures prior.Some? && st.preview != prior ==> prior.value !in r.blobs.live
    ensures prior.Some? && st.preview != prior ==> r.blobs.live == st.blobs.live - {prior.value}
    ensures !(prior.Some? && st.preview != prior) ==> r == st
  {
    if prior.Some? && st.preview != prior then st.(blobs := RevokeObjectUrl(st.blobs, prior.value)) else st
  }

  /** `handleChange` for the file input: the old preview is revoked before a new one
      is created for the chosen file (none when the selection was cleared); the
      banners are cleared. The discipline is kept, so at most one handle is live. */
  function ChooseImage(st: FormState, file: Option<FileRef>): (r: FormState)
    ensures r.data == st.data.(imagen := file)
    ensures r.modoEdicion == st.modoEdicion
    ensures r.preview.Some? <==> file.Some?
    ensures r.error == "" && r.success == ""
    ensures PreviewDiscipline(st) ==> PreviewDiscipline(r) && |r.blobs.live| <= 1
    ensures PreviewDiscipline(st) && st.preview.Some? ==> st.preview.value !in r.blobs.live
  {
    var released := ReleasePreview(st);
    var next :=
      match file
      case None => st.(data := st.data.(imagen := None), preview := None, blobs := released)
      case Some(f) =>
        var c := CreateObjectUrl(released);
        st.(data := st.data.(imagen := file), preview := Some(c.handle), blobs := c.blobs);
    PreviewEffect(st.preview, next.(error := "", success := ""))
  }

  datatype FieldName = NombreField | CostoField | PrecioVentaField | StockField

  /** `handleChange` for a text input: the named field takes the typed text, the
      banners are cleared, nothing else changes. */
  function ChangeText(st: FormState, name: FieldName, text: string, parsed: Option<int>): (r: FormState)
    ensures r.modoEdicion == st.modoEdicion && r.preview == st.preview && r.blobs == st.blobs
    ensures r.error == "" && r.success == ""
    ensures r.data.idProducto == st.data.idProducto && r.data.imagen == st.data.imagen
    ensures r.data.imagenUrl == st.data.imagenUrl
    ensures name == NombreField ==> r.data == st.data.(nombre := text)
    ensures name == CostoField ==> r.data == st.data.(costo := Typed(text, parsed))
    ensures name == PrecioVentaField ==> r.data == st.data.(precioVenta := Typed(text, parsed))
    ensures name == StockField ==> r.data == st.data.(stock := Typed(text, parsed))
  {
    var d :=
      match name
      case NombreField => st.data.(nombre := text)
      case CostoField => st.data.(costo := Typed(text, parsed))
      case PrecioVentaField => st.data.(precioVenta := Typed(text, parsed))
      case StockField => st.data.(stock := Typed(text, parsed));
    st.(data := d, error := "", success := "")
  }

  /** `p.field ?? ""` for a numeric field. */
  function FieldFrom(v: Option<int>): (f: Field)
    ensures v.None? ==> f == Empty
    ensures v.Some? ==> NumberOf(f) == v && FieldText(f) == IntToString(v.value)
    ensures v.Some? ==> (Truthy(f) <==> v.value != 0)
  {
    match v
    case None => Empty
    case Some(n) => Numeric(n)
  }

  /** `handleEditar`: edit mode with a copy of the product (absent values become
      empty inputs), no file chosen, the preview revoked and cleared, banners
      cleared; afterwards no handle is live. */
  function Edit(st: FormState, p: Product): (r: FormState)
    ensures r.modoEdicion
    ensures r.data.idProducto == Some(p.idProducto) && r.data.nombre == p.nombre
    ensures NumberOf(r.data.costo) == p.costo && NumberOf(r.data.precioVenta) == p.precioVenta
    ensures r.data.costo == FieldFrom(p.costo) && r.data.precioVenta == FieldFrom(p.precioVenta)
    ensures r.data.stock == Numeric(p.stock)
    ensures r.data.imagen.None? && r.data.imagenUrl == p.imagenUrl.GetOr("")
    ensures r.preview.None? && r.error == "" && r.success == ""
    ensures PreviewDiscipline(st) ==> PreviewDiscipline(r) && r.blobs.live == {}
  {
    var data := FormData(
      Some(p.idProducto), p.nombre, FieldFrom(p.costo), FieldFrom(p.precioVenta),
      Numeric(p.stock), None, p.imagenUrl.GetOr(""));
    var next := FormState(data, true, None, "", "", ReleasePreview(st));
    PreviewEffect(st.preview, next)
  }

  /** `handleCancelar`: create mode, the all-empty form, the preview revoked and
      cleared, banners cleared; afterwards no handle is live. */
  function Cancel(st: FormState): (r: FormState)
    ensures !r.modoEdicion && r.data == EmptyForm && r.preview.None?
    ensures r.error == "" && r.success == ""
    ensures r.blobs.next == st.blobs.next
    ensures PreviewDiscipline(st) ==> PreviewDiscipline(r) && r.blobs.live == {}
  {
    var next := FormState(EmptyForm, false, None, "", "", ReleasePreview(st));
    PreviewEffect(st.preview, next)
  }

  /** Cancelling twice is cancelling once. */
  lemma CancelIdempotent(st: FormState)
    ensures Cancel(Cancel(st)) == Cancel(st)
  {
  }

  /** Editing a product and then cancelling leaves exactly what cancelling alone leaves. */
  lemma CancelForgetsEdit(st: FormState, p: Product)
    ensures Cancel(Edit(st, p)) == Cancel(st)
  {
  }

  /** Unmounting runs the preview cleanup: no handle stays live. */
  function Unmount(st: FormState): (b: Blobs)
    ensures PreviewDiscipline(st) ==> b.live == {}
  {
    ReleasePreview(st)
  }

  // ---------------------------------------------------------------------------
  // Submitting

  datatype HttpMethod = Post | Put

  datatype Part = TextPart(name: string, value: string) | FilePart(name: string, file: FileRef)

  datatype ProductRequest = ProductRequest(verb: HttpMethod, url: string, body: seq<Part>)

  datatype SubmitStep = Blocked(state: FormState) | Sending(request: ProductRequest)

  /** `${formData.id_producto}`: a missing id interpolates as "null". */
  function IdText(id: Option<int>): (r: string)
    ensures id.None? ==> r == "null"
    ensures id.Some? && id.value >= 0 ==>
      && |r| >= 1 && AllDigits(r) && ParseNat(r) == id.value
      && (|r| > 1 ==> r[0] != '0')
    ensures id.Some? && id.value < 0 ==>
      && |r| >= 2 && r[0] == '-' && AllDigits(r[1..]) && ParseNat(r[1..]) == -id.value
      && (|r| > 2 ==> r[1] != '0')
    ensures id.Some? ==> r != "null"
  {
    match id
    case Some(n) => IntToString(n)
    case None => "null"
  }

  /** The multipart body: trimmed name, cost, sale price and stock, then the image
      only when a file was chosen. */
  function SubmitBody(d: FormData): (body: seq<Part>)
    ensures |body| == if d.imagen.Some? then 5 else 4
    ensures body[0] == TextPart("nombre", Trim(d.nombre))
    ensures body[1] == TextPart("costo", FieldText(d.costo))
    ensures body[2] == TextPart("precio_venta", FieldText(d.precioVenta))
    ensures body[3] == TextPart("stock", FieldText(d.stock))
    ensures forall i :: 0 <= i < |body| ==> (body[i].FilePart? <==> i == 4)
    ensures d.imagen.Some? ==> body[4] == FilePart("imagen", d.imagen.value)
  {
    [ TextPart("nombre", Trim(d.nombre)),
      TextPart("costo", FieldText(d.costo)),
      TextPart("precio_venta", FieldText(d.precioVenta)),
      TextPart("stock", FieldText(d.stock)) ]
    + (if d.imagen.Some? then [FilePart("imagen", d.imagen.value)] else [])
  }

  /** `handleSubmit` up to the request, under a presence rule: `Truthiness` is the
      view as written, `NonEmpty` the corrected validator. A rejected form only sets
      the error banner and sends nothing; an accepted one is sent as PUT to
      `/productos/{id}` in edit mode and as POST to `/productos` otherwise, with a
      non-empty trimmed name. */
  function Submit(st: FormState, apiBase: string, rule: Presence): (r: SubmitStep)
    ensures r.Blocked? <==> Validate(st.data, rule).Rejected?
    ensures rule == Truthiness ==> (r.Blocked? <==> ValidateFormAsWritten(st.data).Rejected?)
    ensures rule == NonEmpty ==> (r.Blocked? <==> ValidateForm(st.data).Rejected?)
    ensures r.Blocked? ==> r.state == st.(error := Validate(st.data, rule).message) && |r.state.error| > 0
    ensures r.Sending? ==> r.request.verb == (if st.modoEdicion then Put else Post)
    ensures r.Sending? && st.modoEdicion ==> r.request.url == apiBase + "/productos/" + IdText(st.data.idProducto)
    ensures r.Sending? && !st.modoEdicion ==> r.request.url == apiBase + "/productos"
    ensures r.Sending? ==> r.request.body == SubmitBody(st.data) && |r.request.body[0].value| > 0
  {
    match Validate(st.data, rule)
    case Rejected(message) => Blocked(st.(error := message))
    case Accepted =>
      assert !Fails(st.data, NameCheck, rule);
      var url := if st.modoEdicion then apiBase + "/productos/" + IdText(st.data.idProducto) else apiBase + "/productos";
      Sending(ProductRequest(if st.modoEdicion then Put else Post, url, SubmitBody(st.data)))
  }

  /** After editing a product whose fields pass the validator in use, submitting
      updates that very product. */
  lemma EditThenSubmitUpdates(st: FormState, p: Product, apiBase: string, rule: Presence)
    requires Validate(Edit(st, p).data, rule).Accepted?
    ensures Submit(Edit(st, p), apiBase, rule).Sending?
    ensures Submit(Edit(st, p), apiBase, rule).request.verb == Put
    ensures Submit(Edit(st, p), apiBase, rule).request.url == apiBase + "/productos/" + IntToString(p.idProducto)
  {
  }

  /** The finding end to end: editing a valid sold-out product and submitting it
      is blocked by the view as written, with the stock message, and is sent as an
      update by the corrected validator. */
  lemma EditedSoldOutSubmit(st: FormState, p: Product, apiBase: string)
    requires !IsBlank(p.nombre)
    requires p.costo.Some? && p.costo.value > 0
    requires p.precioVenta.Some? && p.precioVenta.value > 0
    requires p.stock == 0
    ensures Submit(Edit(st, p), apiBase, Truthiness) == Blocked(Edit(st, p).(error := "El stock no puede ser negativo"))
    ensures Submit(Edit(st, p), apiBase, NonEmpty).Sending?
    ensures Submit(Edit(st, p), apiBase, NonEmpty).request.url == apiBase + "/productos/" + IntToString(p.idProducto)
  {
    EditedSoldOutProductRejectedAsWritten(st, p);
    EditedValidProductAccepted(st, p);
  }

  datatype SaveOutcome = Saved | SaveFailed

  /** How a sent form ends: on success the form is cancelled and the success banner
      names the operation the mode at submit time chose; on failure only the error
      banner changes. */
  function SubmitResolved(st: FormState, outcome: SaveOutcome): (r: FormState)
    ensures outcome == Saved ==>
      && !r.modoEdicion && r.data == EmptyForm && r.preview.None? && r.error == ""
      && r.success == (if st.modoEdicion then "Producto actualizado exitosamente"
                       else "Producto registrado exitosamente")
    ensures outcome == SaveFailed ==>
      r == st.(error := "Hubo un problema al guardar el producto. Intenta nuevamente.")
    ensures PreviewDiscipline(st) ==> PreviewDiscipline(r)
  {
    match outcome
    case Saved =>
      Cancel(st).(success := if st.modoEdicion then "Producto actualizado exitosamente"
                             else "Producto registrado exitosamente")
    case SaveFailed =>
      st.(error := "Hubo un problema al guardar el producto. Intenta nuevamente.")
  }

  // ---------------------------------------------------------------------------
  // The preview zone

  datatype PreviewZone = PreviewImage(handle: Handle) | CurrentImage(src: string) | NoImage

  /** The image under the file input: the new preview when there is one, otherwise
      the product's current image resolved against `apiBase`, otherwise nothing. */
  function PreviewZoneOf(st: FormState, apiBase: string): (r: PreviewZone)
    ensures st.preview.Some? ==> r == PreviewImage(st.preview.value)
    ensures st.preview.None? ==> (r.NoImage? <==> st.data.imagenUrl == "")
    ensures st.preview.None? && st.data.imagenUrl != "" ==> r.CurrentImage?
    ensures r.CurrentImage? ==> ImgSrc(apiBase, Some(st.data.imagenUrl)) == Some(r.src)
  {
    match st.preview
    case Some(h) => PreviewImage(h)
    case None =>
      match ImgSrc(apiBase, Some(st.data.imagenUrl))
      case Some(src) => CurrentImage(src)
      case None => NoImage
  }
}
