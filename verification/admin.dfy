/** The product editor of the admin panel: the form state, the colour-list
    edits, the conversion of the form into a product on save and of a
    product into the form on edit, and the one-click status and visibility
    toggles. */
module Admin {
  import opened Wrappers
  import opened Lists
  import opened Text
  import opened Catalogue
  import Documents

  /** The editor's `formData`. Prices and sizes are the text the admin types;
      sizes are comma-separated. */
  datatype FormData = FormData(
    name: string,
    price: string,
    originalPrice: string,
    category: string,
    kind: string,
    sizes: string,
    colors: seq<Color>,
    image: string,
    description: string,
    status: string,
    visible: bool,
    featured: bool)

  /** The form after `resetForm()` and when the panel opens. */
  const EmptyForm: FormData := FormData("", "", "", "Men", "crocs", "", [], "", "", "available", true, false)

  // ---------------------------------------------------------------- sizes

  predicate IsFilled(s: string) {
    s != ""
  }

  function TrimAll(xs: seq<string>): (r: seq<string>)
    ensures |r| == |xs|
    ensures forall i :: 0 <= i < |xs| ==> r[i] == Trim(xs[i])
  {
    seq(|xs|, i requires 0 <= i < |xs| => Trim(xs[i]))
  }

  /** A character absent from a string is absent from every piece of it. */
  lemma AbsentFromPiece(s: string, t: string, i: int, c: char)
    requires OccursAt(s, t, i) && c !in s
    ensures c !in t
  {
    forall j | 0 <= j < |t| ensures t[j] != c {
      assert t[j] == s[i + j];
    }
  }

  /** A size as saved: no saved size is empty, holds a comma or has white
      space around it. */
  predicate IsCleanSize(s: string) {
    s != "" && ',' !in s && Trim(s) == s
  }

  /** The sizes `handleSave` stores: for the type "crocs", the comma-separated
      pieces of the text, trimmed, with the empty ones dropped; for any other
      type, none. */
  function SavedSizes(kind: string, text: string): (r: seq<string>)
    ensures kind != "crocs" ==> r == []
    ensures forall i :: 0 <= i < |r| ==> IsCleanSize(r[i])
  {
    if kind == "crocs" then SizePieces(text) else []
  }

  /** `text.split(',').map(s => s.trim()).filter(Boolean)`. */
  function SizePieces(text: string): (r: seq<string>)
    ensures forall i :: 0 <= i < |r| ==> IsCleanSize(r[i])
  {
    var r := Filter(TrimAll(Split(text, ',')), IsFilled);
    PiecesAreClean(Split(text, ','), r);
    r
  }

  predicate IsTrimmedPiece(s: string) {
    ',' !in s && Trim(s) == s
  }

  /** Every non-empty trimmed piece of a comma split is a clean size. */
  lemma {:induction false} PiecesAreClean(pieces: seq<string>, r: seq<string>)
    requires forall j :: 0 <= j < |pieces| ==> ',' !in pieces[j]
    requires r == Filter(TrimAll(pieces), IsFilled)
    ensures forall i :: 0 <= i < |r| ==> IsCleanSize(r[i])
  {
    var trimmed := TrimAll(pieces);
    forall j | 0 <= j < |trimmed| ensures IsTrimmedPiece(trimmed[j]) {
      CleanAfterTrim(pieces[j]);
    }
    FilterKeepsProperty(trimmed, IsFilled, IsTrimmedPiece);
  }

  /** A comma-free piece stays comma-free when trimmed, and trimming it
      again changes nothing. */
  lemma CleanAfterTrim(piece: string)
    requires ',' !in piece
    ensures ',' !in Trim(piece) && Trim(Trim(piece)) == Trim(piece)
  {
    TrimIsPiece(piece);
    AbsentFromPiece(piece, Trim(piece), |piece| - |TrimStart(piece)|, ',');
    TrimOfTrimmed(Trim(piece));
  }

  /** Splitting a ", "-joined list on commas gives the first item and every
      later item with the blank in front of it. */
  lemma {:induction false} SplitSpaced(lead: string, xs: seq<string>)
    requires |xs| >= 1 && ',' !in lead
    requires forall i :: 0 <= i < |xs| ==> ',' !in xs[i]
    ensures Split(lead + Join(xs, ", "), ',') ==
      [lead + xs[0]] + seq(|xs| - 1, i requires 0 <= i < |xs| - 1 => " " + xs[i + 1])
    decreases |xs|
  {
    assert ',' !in lead + xs[0];
    if |xs| == 1 {
      SplitWithout(lead + xs[0], ',');
    } else {
      var rest := Join(xs[1..], ", ");
      assert Join(xs, ", ") == xs[0] + ", " + rest;
      assert lead + Join(xs, ", ") == (lead + xs[0]) + ([','] + (" " + rest));
      SplitPiece(lead + xs[0], " " + rest, ',');
      SplitSpaced(" ", xs[1..]);
    }
  }

  /** One blank in front of a trimmed, non-empty size is trimmed away. */
  lemma TrimSpaced(y: string)
    requires y != "" && Trim(y) == y
    ensures Trim(" " + y) == y
  {
    assert (" " + y)[1..] == y;
    assert TrimStart(" " + y) == TrimStart(y);
  }

  /** Trimming the comma-separated pieces of a ", "-joined list of clean
      sizes gives the list back. */
  lemma {:induction false} TrimmedPiecesOfJoin(xs: seq<string>)
    requires |xs| >= 1
    requires forall i :: 0 <= i < |xs| ==> IsCleanSize(xs[i])
    ensures TrimAll(Split(Join(xs, ", "), ',')) == xs
  {
    assert forall i :: 0 <= i < |xs| ==> ',' !in xs[i];
    SplitSpaced("", xs);
    assert "" + Join(xs, ", ") == Join(xs, ", ");
    assert "" + xs[0] == xs[0];
    TrimEach(xs, Split(Join(xs, ", "), ','));
  }

  /** Trimming the first item and every later item with a blank in front
      gives the clean items back. */
  lemma TrimEach(xs: seq<string>, pieces: seq<string>)
    requires |xs| >= 1
    requires forall i :: 0 <= i < |xs| ==> IsCleanSize(xs[i])
    requires pieces == [xs[0]] + seq(|xs| - 1, i requires 0 <= i < |xs| - 1 => " " + xs[i + 1])
    ensures TrimAll(pieces) == xs
  {
    forall i | 0 <= i < |xs| ensures Trim(pieces[i]) == xs[i] {
      TrimPiece(xs, pieces, i);
    }
  }

  lemma TrimPiece(xs: seq<string>, pieces: seq<string>, i: int)
    requires |xs| >= 1
    requires forall i :: 0 <= i < |xs| ==> IsCleanSize(xs[i])
    requires pieces == [xs[0]] + seq(|xs| - 1, i requires 0 <= i < |xs| - 1 => " " + xs[i + 1])
    requires 0 <= i < |xs|
    ensures Trim(pieces[i]) == xs[i]
  {
    if i == 0 {
      assert pieces[0] == xs[0];
      assert IsCleanSize(xs[0]);
    } else {
      assert pieces[i] == " " + xs[i];
      assert IsCleanSize(xs[i]);
      TrimSpaced(xs[i]);
    }
  }

  /** Sizes survive an edit followed by a save: joining them with ", " for
      the form and saving the text gives them back, when each is clean. */
  lemma {:induction false} SizesRoundTrip(xs: seq<string>)
    requires forall i :: 0 <= i < |xs| ==> IsCleanSize(xs[i])
    ensures SavedSizes("crocs", Join(xs, ", ")) == xs
  {
    if xs == [] {
      assert Split("", ',') == [""];
      assert TrimAll([""]) == [""];
      assert Filter([""], IsFilled) == [];
    } else {
      TrimmedPiecesOfJoin(xs);
      FilterKeepsAll(xs, IsFilled);
    }
  }

  // ---------------------------------------------------------------- colours

  predicate HasName(c: Color) {
    Trim(c.name) != ""
  }

  /** The colours `handleSave` stores: exactly the entries whose name is not
      blank once trimmed, in their order. */
  function SavedColors(cs: seq<Color>): (r: seq<Color>)
    ensures forall c: Color :: c in r <==> c in cs && Trim(c.name) != ""
    ensures forall c: Color :: Trim(c.name) != "" ==> multiset(r)[c] == multiset(cs)[c]
  {
    Filter(cs, HasName)
  }

  /** The colour list `handleEdit` puts in the form: bare names become
      available colours, records stay, and a missing list becomes []. */
  function EditColors(colors: Option<seq<ColorEntry>>): (r: seq<Color>)
    ensures colors.None? ==> r == []
    ensures colors.Some? ==>
      && |r| == |colors.value|
      && forall i :: 0 <= i < |r| ==> r[i] == Normalised(colors.value[i])
  {
    match colors
    case None => []
    case Some(cs) => seq(|cs|, i requires 0 <= i < |cs| => Normalised(cs[i]))
  }

  /** Which field of a colour `handleColorChange` sets; any other field
      name leaves the list as it was. */
  datatype ColorEdit = Rename(name: string) | SetAvailable(available: bool) | OtherField

  /** `handleColorChange(index, field, value)`: only the entry at the index
      changes, and only in the named field. */
  function ColorChanged(cs: seq<Color>, index: int, edit: ColorEdit): (r: seq<Color>)
    requires 0 <= index < |cs|
    ensures |r| == |cs|
    ensures forall j :: 0 <= j < |cs| && j != index ==> r[j] == cs[j]
    ensures edit.Rename? ==> r[index] == Color(edit.name, cs[index].available)
    ensures edit.SetAvailable? ==> r[index] == Color(cs[index].name, edit.available)
    ensures edit.OtherField? ==> r == cs
  {
    match edit
    case Rename(n) => cs[index := cs[index].(name := n)]
    case SetAvailable(b) => cs[index := cs[index].(available := b)]
    case OtherField => cs
  }

  /** `removeColor(index)`: exactly the entry at the index goes, the rest
      keep their order; an index outside the list removes nothing. */
  function WithoutIndex(cs: seq<Color>, index: int): (r: seq<Color>)
    ensures 0 <= index < |cs| ==>
      && |r| == |cs| - 1
      && (forall j :: 0 <= j < index ==> r[j] == cs[j])
      && (forall j :: index <= j < |r| ==> r[j] == cs[j + 1])
    ensures !(0 <= index < |cs|) ==> r == cs
  {
    if 0 <= index < |cs| then cs[..index] + cs[index + 1..] else cs
  }

  /** The colour `addColor` appends. */
  const BlankColor: Color := Color("", true)

  /** Removing the colour just added restores the list. */
  lemma RemoveUndoesAdd(cs: seq<Color>)
    ensures WithoutIndex(cs + [BlankColor], |cs|) == cs
  {
    assert (cs + [BlankColor])[..|cs|] == cs;
  }

  /** A freshly added colour is blank, so saving drops it. */
  lemma {:induction false} BlankColorIsNotSaved(cs: seq<Color>)
    ensures SavedColors(cs + [BlankColor]) == SavedColors(cs)
  {
    FilterAppend(cs, [BlankColor], HasName);
    assert Trim(BlankColor.name) == "";
    assert Filter([BlankColor], HasName) == [];
  }

  // ---------------------------------------------------------------- form <-> product

  /** The form `handleEdit(product)` fills in. */
  function EditForm(p: Product): (r: FormData)
    ensures r.sizes == Join(p.sizes, ", ")
    ensures r.colors == EditColors(p.colors)
    ensures r.originalPrice == (if p.originalPrice.Some? then p.originalPrice.value else "")
    ensures r.kind == (if p.kind == "" then "crocs" else p.kind)
  {
    FormData(
      p.name,
      p.price,
      if p.originalPrice.Some? then p.originalPrice.value else "",
      p.category,
      if p.kind == "" then "crocs" else p.kind,
      Join(p.sizes, ", "),
      EditColors(p.colors),
      p.image,
      p.description,
      p.status,
      p.visible,
      p.featured)
  }

  /** The `productData` `handleSave` builds. The id is a placeholder:
      `addProduct` assigns one, and an update carries every field but the id. */
  function ProductData(form: FormData): (r: Product)
    ensures r.originalPrice == (if form.originalPrice == "" then None else Some(form.originalPrice))
    ensures r.sizes == SavedSizes(form.kind, form.sizes)
    ensures r.colors == Some(Swatches(SavedColors(form.colors)))
    ensures r.images == Some([form.image])
  {
    Product(
      0,
      form.name,
      form.price,
      if form.originalPrice == "" then None else Some(form.originalPrice),
      form.category,
      form.kind,
      SavedSizes(form.kind, form.sizes),
      Some(Swatches(SavedColors(form.colors))),
      form.image,
      Some([form.image]),
      form.description,
      form.status,
      form.visible,
      form.featured)
  }

  /** The update object that carries every field of `p` except its id:
      applied to any product it gives `p` under that product's id, except
      that colours are normalised and a missing image list keeps the old one. */
  function AsUpdate(p: Product): (r: Patch)
    ensures forall q: Product :: Merged(q, r).(colors := p.colors, images := p.images) == p.(id := q.id)
    ensures forall q: Product :: p.colors.Some? ==> Merged(q, r).colors == Some(NormaliseAll(p.colors.value))
    ensures forall q: Product :: p.colors.None? ==> Merged(q, r).colors == q.colors
    ensures forall q: Product :: p.images.Some? ==> Merged(q, r).images == p.images
  {
    Patch(Some(p.name), Some(p.price), Some(p.originalPrice), Some(p.category), Some(p.kind),
          Some(p.sizes), p.colors, Some(p.image), p.images, Some(p.description), Some(p.status),
          Some(p.visible), Some(p.featured))
  }

  /** Updating any product with every field of a saved form replaces it,
      keeping only its id. */
  lemma {:induction false} FullUpdateReplaces(q: Product, form: FormData)
    ensures Merged(q, AsUpdate(ProductData(form))) == ProductData(form).(id := q.id)
  {
    NormaliseCurrent(Swatches(SavedColors(form.colors)));
  }

  /** The colours of a product that an edit followed by a save keeps. */
  predicate KeepsColors(colors: Option<seq<ColorEntry>>) {
    colors.Some? && AllSwatches(colors.value)
    && forall i :: 0 <= i < |colors.value| ==> HasName(colors.value[i].color)
  }

  /** Opening a product in the editor and saving it unchanged leaves the
      product as it was, when its fields are in the form the editor writes:
      a type, sizes that survive the comma round trip (none for other
      types), colour records with names, a non-empty original price, and
      the single image as its image list. */
  lemma {:induction false} EditThenSaveRestores(p: Product)
    requires p.kind != ""
    requires p.kind == "crocs" ==> forall i :: 0 <= i < |p.sizes| ==> IsCleanSize(p.sizes[i])
    requires p.kind != "crocs" ==> p.sizes == []
    requires KeepsColors(p.colors)
    requires p.originalPrice != Some("")
    requires p.images == Some([p.image])
    ensures Merged(p, AsUpdate(ProductData(EditForm(p)))) == p
  {
    var form := EditForm(p);
    var d := ProductData(form);
    assert d.sizes == p.sizes by {
      if p.kind == "crocs" {
        SizesRoundTrip(p.sizes);
      }
    }
    assert d.colors == p.colors by {
      ColorsRoundTrip(p.colors.value);
    }
    assert d == p.(id := 0);
    FullUpdateReplaces(p, form);
  }

  /** Colour records with names survive an edit followed by a save. */
  lemma {:induction false} ColorsRoundTrip(cs: seq<ColorEntry>)
    requires KeepsColors(Some(cs))
    ensures Swatches(SavedColors(EditColors(Some(cs)))) == cs
  {
    var edited := EditColors(Some(cs));
    assert forall i :: 0 <= i < |edited| ==> edited[i] == cs[i].color;
    FilterKeepsAll(edited, HasName);
    var r := Swatches(edited);
    forall i | 0 <= i < |cs| ensures r[i] == cs[i] {
      assert cs[i].Swatch?;
    }
  }

  // ---------------------------------------------------------------- toggles

  /** The status `toggleStatus` writes: "available" becomes "sold-out" and
      any other status becomes "available". */
  function Toggled(status: string): (r: string)
    ensures status == "available" ==> r == "sold-out"
    ensures status != "available" ==> r == "available"
    ensures r != status || status !in {"available", "sold-out"}
  {
    if status == "available" then "sold-out" else "available"
  }

  /** Toggling twice restores either of the two statuses the editor offers. */
  lemma ToggleTwice(status: string)
    requires status == "available" || status == "sold-out"
    ensures Toggled(Toggled(status)) == status
  {
  }

  /** The update `toggleStatus` sends: applied to any product, it sets the
      status and nothing else. */
  function StatusUpdate(status: string): (r: Patch)
    ensures forall p: Product :: Merged(p, r) == p.(status := status)
  {
    NoChange.(status := Some(status))
  }

  /** The update `toggleVisibility` sends: applied to any product, it sets
      the visibility and nothing else. */
  function VisibilityUpdate(visible: bool): (r: Patch)
    ensures forall p: Product :: Merged(p, r) == p.(visible := visible)
  {
    NoChange.(visible := Some(visible))
  }

  /** A status toggle changes the status of the products with that id and
      nothing else. */
  lemma ToggleChangesOnlyStatus(ps: seq<Product>, id: int, current: string)
    ensures forall i :: 0 <= i < |ps| && ps[i].id == id ==>
      UpdatedById(ps, id, StatusUpdate(Toggled(current)))[i] == ps[i].(status := Toggled(current))
    ensures forall i :: 0 <= i < |ps| && ps[i].id != id ==>
      UpdatedById(ps, id, StatusUpdate(Toggled(current)))[i] == ps[i]
  {
  }

  /** `if (editingId)`: a save updates only when an id is being edited and
      that id is truthy (not 0). */
  function Updating(editingId: Option<int>): (r: bool)
    ensures r <==> editingId.Some? && Documents.Truthy(Documents.Num(editingId.value))
  {
    editingId.Some? && editingId.value != 0
  }

  /** The product editor: the form, the id under edit (`null` as `None`) and
      the catalogue it writes to. */
  class AdminPanel {
    var form: FormData
    var editingId: Option<int>
    const catalogue: ProductCatalogue

    constructor (catalogue: ProductCatalogue)
      ensures form == EmptyForm && editingId == None && this.catalogue == catalogue
    {
      form := EmptyForm;
      editingId := None;
      this.catalogue := catalogue;
    }

    /** `handleEdit(product)`. */
    method Edit(p: Product)
      modifies this`form, this`editingId
      ensures editingId == Some(p.id) && form == EditForm(p)
    {
      editingId := Some(p.id);
      form := EditForm(p);
    }

    /** `handleColorChange(index, field, value)`. */
    method ChangeColor(index: int, edit: ColorEdit)
      requires 0 <= index < |form.colors|
      modifies this`form
      ensures form == old(form).(colors := ColorChanged(old(form).colors, index, edit))
    {
      form := form.(colors := ColorChanged(form.colors, index, edit));
    }

    /** `addColor()`. */
    method AddColor()
      modifies this`form
      ensures form == old(form).(colors := old(form).colors + [BlankColor])
    {
      form := form.(colors := form.colors + [BlankColor]);
    }

    /** `removeColor(index)`. */
    method RemoveColor(index: int)
      modifies this`form
      ensures form == old(form).(colors := WithoutIndex(old(form).colors, index))
    {
      form := form.(colors := WithoutIndex(form.colors, index));
    }

    /** `handleSave()`, with `now` for the clock `addProduct` reads. Without
        a name or a price nothing changes. Otherwise the form's product
        updates the product under edit, or is added when no (truthy) id is
        under edit, and the form is reset. */
    method Save(now: int) returns (saved: bool)
      modifies this`form, this`editingId, catalogue`products
      ensures saved <==> old(form).name != "" && old(form).price != ""
      ensures !saved ==>
        && form == old(form) && editingId == old(editingId)
        && catalogue.products == old(catalogue.products)
      ensures saved ==> form == EmptyForm
      ensures saved && Updating(old(editingId)) ==>
        && editingId == None
        && catalogue.products == UpdatedById(old(catalogue.products), old(editingId).value, AsUpdate(ProductData(old(form))))
      ensures saved && !Updating(old(editingId)) ==>
        && editingId == old(editingId)
        && catalogue.products == old(catalogue.products) + [NewProduct(ProductData(old(form)), now)]
    {
      if form.name == "" || form.price == "" {
        return false;
      }
      var data := ProductData(form);
      if Updating(editingId) {
        catalogue.UpdateProduct(editingId.value, AsUpdate(data));
        editingId := None;
      } else {
        var _ := catalogue.AddProduct(data, now);
      }
      form := EmptyForm;
      saved := true;
    }

    /** `toggleStatus(id, currentStatus)`. */
    method ToggleStatus(id: int, currentStatus: string)
      modifies catalogue`products
      ensures catalogue.products == UpdatedById(old(catalogue.products), id, StatusUpdate(Toggled(currentStatus)))
    {
      catalogue.UpdateProduct(id, StatusUpdate(Toggled(currentStatus)));
    }

    /** `toggleVisibility(id, currentVisible)`. */
    method ToggleVisibility(id: int, currentVisible: bool)
      modifies catalogue`products
      ensures catalogue.products == UpdatedById(old(catalogue.products), id, VisibilityUpdate(!currentVisible))
    {
      catalogue.UpdateProduct(id, VisibilityUpdate(!currentVisible));
    }
  }
}
