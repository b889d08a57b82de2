/**
 * The page around the order form (`App`): which size is selected, and the
 * order form shown for it. The cards are shown only while nothing is
 * selected; the order form, and with it its draft, exists only while a
 * size is selected, so going back discards the draft and the next card
 * click mounts a new, empty one.
 */
module AppShell {
  import opened Wrappers
  import Sizes
  import OrderForm
  import JsString
  import JsValue

  class App {
    var selected: Option<string>
    var form: OrderForm.Uploader?

    /** A form is mounted exactly while a size is selected, and it is the form for that size. */
    ghost predicate Valid()
      reads this
    {
      (selected.None? <==> form == null) &&
      (selected.Some? ==> Sizes.IsSizeKey(selected.value)) &&
      (form != null ==> form.sizeKey == selected.value)
    }

    constructor ()
      ensures Valid() && selected == None && form == null
    {
      selected := None;
      form := null;
    }

    /** Clicking card `i` selects its key and mounts a fresh order form headed by its title. */
    method SelectCard(i: nat)
      requires Valid() && selected.None? && i < |Sizes.Table|
      modifies this
      ensures Valid() && selected == Some(Sizes.Table[i].key)
      ensures form != null && fresh(form)
      ensures form.State() == OrderForm.Initial
      ensures Sizes.Title(form.sizeKey) == Some(Sizes.Table[i].title)
    {
      Sizes.CardTitle(i);
      selected := Some(Sizes.Table[i].key);
      form := new OrderForm.Uploader(Sizes.Table[i].key);
    }

    /** The form's back button: nothing is selected and the draft is gone, whatever state it was in. */
    method Back()
      requires Valid()
      modifies this
      ensures Valid() && selected == None && form == null
    {
      selected := None;
      form := null;
    }
  }

  /**
   * A customer's visit, driven through the event methods alone: pick
   * "2+ layers", load a photo, describe the cake, submit, receive id "7",
   * go back and pick again.
   */
  method OrderScenario(photo: string)
    requires photo != ""
  {
    var app := new App();
    app.SelectCard(2);
    var form := app.form;
    assert form.sizeKey == "multi_layer";
    form.FileLoaded(photo);
    form.SetDesc("chocolate, 3 tiers");
    JsString.NotBlankAt("chocolate, 3 tiers", 0);
    var request := form.BeginSubmit();
    assert request == Some(OrderForm.Request("multi_layer", "chocolate, 3 tiers", photo, None, None));
    assert form.saving;
    var alert := form.CompleteSubmit(OrderForm.Ok(JsValue.Str("7")));
    assert alert.None? && form.savedId == JsValue.Str("7") && !form.saving;
    assert form.desc == "chocolate, 3 tiers";
    app.Back();
    app.SelectCard(0);
    assert app.form.State() == OrderForm.Initial && app.form != form;
  }
}
