/** Menu items (`createMenuItem`, `updateMenuItem`): field sanitisation, validation and the one write each makes. */
module Menu {
  import opened Wrappers
  import opened JsNum
  import opened Json
  import opened Store

  const DefaultGradient: string := "from-fuchsia-500/40 to-pink-500/40"
  const MaxNameLength: nat := 80
  const MaxIngredients: nat := 20
  const MaxGradientLength: nat := 120

  const NameRequired: string := "Nome obrigatório."
  const IngredientsRequired: string := "Ingredientes obrigatórios."
  const PriceRequired: string := "Preço deve ser > 0."

  /**
   * The fields of a menu request. For `createMenuItem` a `None` is an
   * argument left undefined; for `updateMenuItem` it is a key the patch
   * does not have.
   */
  datatype MenuFields = MenuFields(
    name: Option<string>,
    items: Option<Value>,
    price: Option<Value>,
    active: Option<Value>,
    gradient: Option<Value>)

  /** `String(name || "").trim().slice(0, 80)`. */
  function SafeName(name: Option<string>): (r: string)
    ensures var t := Trim(name.GetOr(""));
      |r| == (if |t| < MaxNameLength then |t| else MaxNameLength) && r == t[..|r|]
    ensures r == "" <==> !NonBlank(name.GetOr(""))
  {
    TrimmedIffNonBlank(name.GetOr(""));
    Take(Trim(name.GetOr("")), MaxNameLength)
  }

  /** The gradient class: the trimmed string cut to 120 characters, or the default for a blank or non-string value. */
  function SafeGradient(gradient: Option<Value>): (r: string)
    ensures r != ""
    ensures |r| <= MaxGradientLength
    ensures gradient.Some? && gradient.value.Str? && NonBlank(gradient.value.s) ==>
      var t := Trim(gradient.value.s);
      |r| == (if |t| < MaxGradientLength then |t| else MaxGradientLength) && r == t[..|r|]
    ensures !(gradient.Some? && gradient.value.Str? && NonBlank(gradient.value.s)) ==> r == DefaultGradient
  {
    if gradient.Some? && gradient.value.Str? && NonBlank(gradient.value.s)
    then Take(Trim(gradient.value.s), MaxGradientLength)
    else DefaultGradient
  }

  /**
   * The document `createMenuItem` writes, or the error it throws before
   * writing: an empty name first, then an empty ingredient list, then a
   * price that is not above zero. `active` defaults to true.
   */
  function NewMenuItem(input: MenuFields): (r: Result<Patch, string>)
    ensures SafeName(input.name) == "" ==> r == Failure(NameRequired)
    ensures SafeName(input.name) != "" && SafeStrings(input.items, MaxIngredients) == [] ==>
              r == Failure(IngredientsRequired)
    ensures (SafeName(input.name) != "" && SafeStrings(input.items, MaxIngredients) != []
              && LessEq(SafePrice(input.price), Zero)) ==> r == Failure(PriceRequired)
    ensures (SafeName(input.name) != "" && SafeStrings(input.items, MaxIngredients) != []
              && Less(Zero, SafePrice(input.price))) ==> r.Success?
  {
    var name := SafeName(input.name);
    var items := SafeStrings(input.items, MaxIngredients);
    var price := SafePrice(input.price);
    var gradient := SafeGradient(input.gradient);
    if name == "" then Failure(NameRequired)
    else if items == [] then Failure(IngredientsRequired)
    else if LessEq(price, Zero) then Failure(PriceRequired)
    else Success(map[
      "name" := Put(Str(name)),
      "items" := Put(List(StringsOf(items))),
      "price" := Put(Number(price)),
      "active" := Put(Bool(input.active.None? || Truthy(input.active))),
      "gradient" := Put(Str(gradient)),
      "createdAt" := ServerTime,
      "updatedAt" := ServerTime])
  }

  /**
   * An accepted item has exactly the seven fields, each the sanitised
   * input, with both timestamps set by the store; and it is accepted only
   * for a non-blank name, one to twenty ingredients and a price above zero.
   */
  lemma NewMenuItemFields(input: MenuFields)
    ensures var r := NewMenuItem(input); r.Success? ==>
      && r.value.Keys == {"name", "items", "price", "active", "gradient", "createdAt", "updatedAt"}
      && r.value["name"] == Put(Str(SafeName(input.name)))
      && r.value["items"] == Put(List(StringsOf(SafeStrings(input.items, MaxIngredients))))
      && r.value["price"] == Put(Number(SafePrice(input.price)))
      && r.value["active"] == Put(Bool(input.active.None? || Truthy(input.active)))
      && r.value["gradient"] == Put(Str(SafeGradient(input.gradient)))
      && r.value["createdAt"] == ServerTime && r.value["updatedAt"] == ServerTime
    ensures var r := NewMenuItem(input); r.Success? ==>
      && NonBlank(input.name.GetOr(""))
      && 1 <= |SafeStrings(input.items, MaxIngredients)| <= MaxIngredients
      && Less(Zero, SafePrice(input.price))
  {
    var name := SafeName(input.name);
    var items := SafeStrings(input.items, MaxIngredients);
    var price := SafePrice(input.price);
    if NewMenuItem(input).Success? {
      assert NewMenuItem(input).value == map[
        "name" := Put(Str(name)),
        "items" := Put(List(StringsOf(items))),
        "price" := Put(Number(price)),
        "active" := Put(Bool(input.active.None? || Truthy(input.active))),
        "gradient" := Put(Str(SafeGradient(input.gradient))),
        "createdAt" := ServerTime,
        "updatedAt" := ServerTime];
    }
  }

  /** `createMenuItem`: validates, then appends one document; a rejected item writes nothing. */
  method CreateMenuItem(menu: Collection, input: MenuFields) returns (r: Result<string, string>)
    modifies menu
    ensures NewMenuItem(input).Failure? ==>
      r == Failure(NewMenuItem(input).error) && menu.docs == old(menu.docs) && menu.now == old(menu.now)
    ensures NewMenuItem(input).Success? ==>
      && r.Success? && r.value !in old(menu.docs)
      && menu.docs == old(menu.docs)[r.value := ApplyPatch(map[], NewMenuItem(input).value, old(menu.now))]
  {
    var record := NewMenuItem(input);
    if record.Failure? {
      return Failure(record.error);
    }
    var id := menu.Add(record.value);
    r := Success(id);
  }

  /** `if (present) upd[key] = w`. */
  function SetIf(upd: Patch, present: bool, key: string, w: FieldWrite): (r: Patch)
    ensures present ==> r == upd[key := w]
    ensures !present ==> r == upd
  {
    if present then upd[key := w] else upd
  }

  /** The update built from the sanitised values, one conditional assignment per field the patch has. */
  function Upd(patch: MenuFields, name: FieldWrite, items: FieldWrite, price: FieldWrite,
               active: FieldWrite, gradient: FieldWrite): (r: Patch)
    ensures "updatedAt" in r && r["updatedAt"] == ServerTime
    ensures r.Keys <= {"updatedAt", "name", "items", "price", "active", "gradient"}
    ensures ("name" in r <==> patch.name.Some?) && ("name" in r ==> r["name"] == name)
    ensures ("items" in r <==> patch.items.Some?) && ("items" in r ==> r["items"] == items)
    ensures ("price" in r <==> patch.price.Some?) && ("price" in r ==> r["price"] == price)
    ensures ("active" in r <==> patch.active.Some?) && ("active" in r ==> r["active"] == active)
    ensures ("gradient" in r <==> patch.gradient.Some?) && ("gradient" in r ==> r["gradient"] == gradient)
  {
    var upd := SetIf(map["updatedAt" := ServerTime], patch.name.Some?, "name", name);
    var upd := SetIf(upd, patch.items.Some?, "items", items);
    var upd := SetIf(upd, patch.price.Some?, "price", price);
    var upd := SetIf(upd, patch.active.Some?, "active", active);
    SetIf(upd, patch.gradient.Some?, "gradient", gradient)
  }

  /**
   * The fields `updateMenuItem` writes: `updatedAt` and exactly the keys
   * the patch has, each sanitised as at creation. Nothing is validated.
   */
  function UpdateFields(patch: MenuFields): (r: Patch)
    ensures "updatedAt" in r && r["updatedAt"] == ServerTime
    ensures r.Keys <= {"updatedAt", "name", "items", "price", "active", "gradient"}
    ensures "name" in r <==> patch.name.Some?
    ensures "items" in r <==> patch.items.Some?
    ensures "price" in r <==> patch.price.Some?
    ensures "active" in r <==> patch.active.Some?
    ensures "gradient" in r <==> patch.gradient.Some?
    ensures "name" in r ==> r["name"] == Put(Str(SafeName(patch.name)))
    ensures "items" in r ==> r["items"] == Put(List(StringsOf(SafeStrings(patch.items, MaxIngredients))))
    ensures "price" in r ==> r["price"] == Put(Number(SafePrice(patch.price)))
    ensures "active" in r ==> r["active"] == Put(Bool(Truthy(patch.active)))
    ensures "gradient" in r ==> r["gradient"] == Put(Str(SafeGradient(patch.gradient)))
  {
    Upd(patch,
        Put(Str(SafeName(patch.name))),
        Put(List(StringsOf(SafeStrings(patch.items, MaxIngredients)))),
        Put(Number(SafePrice(patch.price))),
        Put(Bool(Truthy(patch.active))),
        Put(Str(SafeGradient(patch.gradient))))
  }

  /** An update may blank the name and zero the price: unlike creation, nothing rejects them. */
  lemma UpdateAcceptsWhatCreationRejects(d: Doc, t: int)
    ensures var patch := MenuFields(Some("   "), None, Some(Number(Fin(-3.0))), None, None);
      && NewMenuItem(patch).Failure?
      && var u := ApplyPatch(d, UpdateFields(patch), t);
         u["name"] == Str("") && u["price"] == Number(Fin(-3.0))
  {
    var patch := MenuFields(Some("   "), None, Some(Number(Fin(-3.0))), None, None);
    assert "   "[1..] == "  " && "  "[1..] == " " && " "[1..] == "";
    assert TrimStart("   ") == "";
    assert SafeName(patch.name) == "";
  }

  /**
   * `updateMenuItem(id, patch)`: builds the update field by field and
   * applies it in one write; fields the patch lacks keep their values.
   * Fails, writing nothing, when the item does not exist.
   */
  method UpdateMenuItem(menu: Collection, id: string, patch: MenuFields) returns (ok: bool)
    modifies menu
    ensures ok <==> id in old(menu.docs)
    ensures ok ==> menu.docs == old(menu.docs)[id := ApplyPatch(old(menu.docs)[id], UpdateFields(patch), old(menu.now))]
    ensures !ok ==> menu.docs == old(menu.docs)
  {
    var upd: Patch := map["updatedAt" := ServerTime];
    if patch.name.Some? {
      upd := upd["name" := Put(Str(SafeName(patch.name)))];
    }
    if patch.items.Some? {
      upd := upd["items" := Put(List(StringsOf(SafeStrings(patch.items, MaxIngredients))))];
    }
    if patch.price.Some? {
      upd := upd["price" := Put(Number(SafePrice(patch.price)))];
    }
    if patch.active.Some? {
      upd := upd["active" := Put(Bool(Truthy(patch.active)))];
    }
    if patch.gradient.Some? {
      upd := upd["gradient" := Put(Str(SafeGradient(patch.gradient)))];
    }
    ok := menu.Update(id, upd);
  }
}
