/** The two callbacks behind the colour text field: the text is regenerated
    from the stored colour, or validated and then either reverted or committed
    as the new colour. This file writes the error slot as text, which is its
    own view of that slot. */
module ColorPicker {
  import opened Wrappers
  import Cocoon
  import opened Config

  const InvalidColorMessage := "Invalid color value submitted, reseting to previous."

  /** What the callbacks rely on in the session: where present, the colour
      slot holds a colour, the format slot a format value and the text
      widget a string. */
  ghost predicate PickerReady(m: map<Key, Value>, lib: Cocoon.Library, name: string) {
    && Cocoon.Lawful(lib)
    && (KeySourceColor in m ==> m[KeySourceColor].ColorV?)
    && (KeySourceColorFormat in m ==> m[KeySourceColorFormat].Str? && lib.formatOf(m[KeySourceColorFormat].s).Some?)
    && (Widget(name) in m ==> m[Widget(name)].Str?)
  }

  /** The colour and format slots are both filled and readable. */
  ghost predicate SlotsReady(m: map<Key, Value>, lib: Cocoon.Library) {
    && KeySourceColor in m && m[KeySourceColor].ColorV?
    && KeySourceColorFormat in m && m[KeySourceColorFormat].Str?
    && lib.formatOf(m[KeySourceColorFormat].s).Some?
  }

  /** Once the configuration is built, both slots are readable. */
  lemma ReadyInitialized(m: map<Key, Value>, lib: Cocoon.Library, name: string)
    requires PickerReady(m, lib, name)
    ensures SlotsReady(Initialized(m, lib), lib)
    ensures PickerReady(Initialized(m, lib), lib, name)
  {
    ColorSlotInitialized(m, lib);
    assert lib.formatOf(lib.formatValue(lib.floatD4)) == Some(lib.floatD4);
    FormatSlotInitialized(m, lib);
    InitializedKeys(m, lib);
  }

  lemma ColorSlotInitialized(m: map<Key, Value>, lib: Cocoon.Library)
    requires KeySourceColor in m ==> m[KeySourceColor].ColorV?
    ensures KeySourceColor in Initialized(m, lib) && Initialized(m, lib)[KeySourceColor].ColorV?
  {
    InitializedAt(m, lib, KeySourceColor);
  }

  lemma FormatSlotInitialized(m: map<Key, Value>, lib: Cocoon.Library)
    requires lib.formatOf(lib.formatValue(lib.floatD4)).Some?
    requires KeySourceColorFormat in m ==> m[KeySourceColorFormat].Str? && lib.formatOf(m[KeySourceColorFormat].s).Some?
    ensures var mi := Initialized(m, lib);
      KeySourceColorFormat in mi && mi[KeySourceColorFormat].Str? && lib.formatOf(mi[KeySourceColorFormat].s).Some?
  {
    InitializedAt(m, lib, KeySourceColorFormat);
  }

  /** A session that already holds every configuration key is left as it is
      by building the configuration. */
  lemma InitializedFull(m: map<Key, Value>, lib: Cocoon.Library)
    requires forall k: Key :: !k.Widget? ==> k in m
    ensures Initialized(m, lib) == m
  {
    forall k | k in ConfigKeys
      ensures k in m
    {
      ConfigKeysComplete(k);
    }
    FillFromPresent(m, ConfigKeys, 0, lib);
  }

  /** `config().USER_SOURCE_COLOR`. */
  function StoredColor(m: map<Key, Value>, lib: Cocoon.Library): Cocoon.Color
    requires SlotsReady(m, lib)
  {
    m[KeySourceColor].color
  }

  /** `config().USER_SOURCE_COLOR_FORMAT`. */
  function StoredFormat(m: map<Key, Value>, lib: Cocoon.Library): Cocoon.ColorStringFormat
    requires SlotsReady(m, lib)
  {
    lib.formatOf(m[KeySourceColorFormat].s).value
  }

  /** The text of the stored colour in the stored format. */
  function StoredText(m: map<Key, Value>, lib: Cocoon.Library): string
    requires SlotsReady(m, lib)
  {
    lib.convertColorToStr(StoredColor(m, lib), StoredFormat(m, lib))
  }

  /** The text widget, where present, holds a string. */
  ghost predicate TextReady(m: map<Key, Value>, name: string) {
    Widget(name) in m ==> m[Widget(name)].Str?
  }

  /** Every configuration key is present. */
  ghost predicate Full(m: map<Key, Value>) {
    forall k: Key :: !k.Widget? ==> k in m
  }

  /** The body of `widget_color_source` on a session whose configuration is
      built: clear the error, then regenerate, revert or commit. */
  function SourceStep(m: map<Key, Value>, lib: Cocoon.Library, name: string, force: bool): map<Key, Value>
    requires SlotsReady(m, lib) && TextReady(m, name)
  {
    var key := Widget(name);
    var format := StoredFormat(m, lib);
    var cleared := m[KeySourceError := Str("")];
    if key !in m || force then
      cleared[key := Str(StoredText(m, lib))]
    else if !lib.validateColorStr(m[key].s, format) then
      cleared[KeySourceError := Str(InvalidColorMessage)] - {key}
    else
      var fixed := lib.fixColorStr(m[key].s, format);
      cleared[key := Str(fixed)][KeySourceColor := ColorV(lib.convertStrToColor(fixed, format))]
  }

  /** The text field holds text the validator rejects, so the call reverts. */
  ghost predicate Rejected(m: map<Key, Value>, lib: Cocoon.Library, name: string, force: bool)
    requires SlotsReady(m, lib) && TextReady(m, name)
  {
    && !force && Widget(name) in m
    && !lib.validateColorStr(m[Widget(name)].s, StoredFormat(m, lib))
  }

  /** The session after `widget_color_source(key, force_update)`, which
      builds the configuration first. */
  function ColorSourceStep(m0: map<Key, Value>, lib: Cocoon.Library, name: string, force: bool): map<Key, Value>
    requires PickerReady(m0, lib, name)
  {
    ReadyInitialized(m0, lib, name);
    SourceStep(Initialized(m0, lib), lib, name, force)
  }

  /** `widget_color_source`. */
  method WidgetColorSource(session: Session, lib: Cocoon.Library, name: string, forceUpdate: bool)
    requires PickerReady(session.state, lib, name)
    modifies session
    ensures session.state == ColorSourceStep(old(session.state), lib, name, forceUpdate)
  {
    ReadyInitialized(session.state, lib, name);
    var config := NewConfig(session, lib);
    var key := Widget(name);
    var color := session.state[KeySourceColor].color;
    var format := lib.formatOf(session.state[KeySourceColorFormat].s).value;
    var present := key in session.state;
    var userValue := if present then session.state[key].s else "";
    session.state := session.state[KeySourceError := Str("")];

    if !present || forceUpdate {
      session.state := session.state[key := Str(lib.convertColorToStr(color, format))];
      return;
    }

    var validated := lib.validateColorStr(userValue, format);
    if !validated {
      session.state := session.state[KeySourceError := Str(InvalidColorMessage)];
      session.state := session.state - {key};
      return;
    }

    var safeUserValue := lib.fixColorStr(userValue, format);
    session.state := session.state[key := Str(safeUserValue)];
    var newColor := lib.convertStrToColor(safeUserValue, format);
    session.state := session.state[KeySourceColor := ColorV(newColor)];
  }

  /** A session prepared by the configuration is left prepared by the step,
      with its format unchanged, so a later call does not rebuild it. */
  lemma SourceStepKeepsReady(m: map<Key, Value>, lib: Cocoon.Library, name: string, force: bool)
    requires SlotsReady(m, lib) && TextReady(m, name)
    ensures var r := SourceStep(m, lib, name, force);
      && SlotsReady(r, lib) && TextReady(r, name)
      && StoredFormat(r, lib) == StoredFormat(m, lib)
      && (Full(m) ==> Full(r))
  {
  }

  /** Every call leaves the error cleared, unless it reverts rejected text,
      in which case the error holds the revert message. */
  lemma SourceStepErrorSlot(m: map<Key, Value>, lib: Cocoon.Library, name: string, force: bool)
    requires SlotsReady(m, lib) && TextReady(m, name)
    ensures var r := SourceStep(m, lib, name, force);
      && KeySourceError in r
      && r[KeySourceError] == (if Rejected(m, lib, name, force) then Str(InvalidColorMessage) else Str(""))
  {
  }

  /** With no text yet, or when forced, the text becomes the stored colour
      in the stored format and the colour is left as it was. */
  lemma SourceStepRegenerates(m: map<Key, Value>, lib: Cocoon.Library, name: string, force: bool)
    requires SlotsReady(m, lib) && TextReady(m, name)
    requires Widget(name) !in m || force
    ensures var r := SourceStep(m, lib, name, force);
      && Widget(name) in r && r[Widget(name)] == Str(StoredText(m, lib))
      && r[KeySourceColor] == m[KeySourceColor]
  {
  }

  /** Rejected text is dropped from the session and the colour is kept. */
  lemma SourceStepReverts(m: map<Key, Value>, lib: Cocoon.Library, name: string, force: bool)
    requires SlotsReady(m, lib) && TextReady(m, name)
    requires Rejected(m, lib, name, force)
    ensures var r := SourceStep(m, lib, name, force);
      && Widget(name) !in r
      && r[KeySourceError] == Str(InvalidColorMessage)
      && r[KeySourceColor] == m[KeySourceColor]
  {
  }

  /** Accepted text is replaced by its fixed form, which becomes the colour. */
  lemma SourceStepCommits(m: map<Key, Value>, lib: Cocoon.Library, name: string)
    requires SlotsReady(m, lib) && TextReady(m, name)
    requires Widget(name) in m && lib.validateColorStr(m[Widget(name)].s, StoredFormat(m, lib))
    ensures var format := StoredFormat(m, lib);
      var fixed := lib.fixColorStr(m[Widget(name)].s, format);
      var r := SourceStep(m, lib, name, false);
      && r[Widget(name)] == Str(fixed)
      && r[KeySourceColor] == ColorV(lib.convertStrToColor(fixed, format))
      && r[KeySourceError] == Str("")
  {
  }

  /** No key other than the text, the colour and the error changes. */
  lemma SourceStepFrame(m: map<Key, Value>, lib: Cocoon.Library, name: string, force: bool, k: Key)
    requires SlotsReady(m, lib) && TextReady(m, name)
    requires k != Widget(name) && k != KeySourceColor && k != KeySourceError
    ensures var r := SourceStep(m, lib, name, force);
      (k in r <==> k in m) && (k in r ==> r[k] == m[k])
  {
  }

  /** After rejected text, the next call shows the previous colour again and
      clears the error. */
  lemma RejectedThenPrevious(m: map<Key, Value>, lib: Cocoon.Library, name: string, force: bool)
    requires SlotsReady(m, lib) && TextReady(m, name)
    requires Rejected(m, lib, name, force)
    ensures SlotsReady(SourceStep(m, lib, name, force), lib) && TextReady(SourceStep(m, lib, name, force), name)
    ensures var r := SourceStep(SourceStep(m, lib, name, force), lib, name, false);
      && Widget(name) in r && r[Widget(name)] == Str(StoredText(m, lib))
      && r[KeySourceError] == Str("")
  {
    var r1 := SourceStep(m, lib, name, force);
    SourceStepReverts(m, lib, name, force);
    SourceStepKeepsReady(m, lib, name, force);
    SourceStepRegenerates(r1, lib, name, false);
    SourceStepErrorSlot(r1, lib, name, false);
  }

  /** After the first call the configuration is built, so every later call
      is the plain step on the session as it stands. */
  lemma ColorSourceStepConfigured(m0: map<Key, Value>, lib: Cocoon.Library, name: string, force: bool)
    requires PickerReady(m0, lib, name)
    ensures PickerReady(ColorSourceStep(m0, lib, name, force), lib, name)
    ensures Full(ColorSourceStep(m0, lib, name, force))
    ensures forall force' :: ColorSourceStep(ColorSourceStep(m0, lib, name, force), lib, name, force')
                          == SourceStep(ColorSourceStep(m0, lib, name, force), lib, name, force')
  {
    ReadyInitialized(m0, lib, name);
    var m := Initialized(m0, lib);
    InitializedKeys(m0, lib);
    assert Full(m);
    SourceStepKeepsReady(m, lib, name, force);
    var r := SourceStep(m, lib, name, force);
    InitializedFull(r, lib);
  }

  /** The body of `widget_color_format` once the chosen format is known: store
      it, then force the text to be regenerated. */
  function FormatStep(m: map<Key, Value>, lib: Cocoon.Library, value: Cocoon.ColorStringFormat, sourceName: string): map<Key, Value>
    requires Cocoon.Lawful(lib) && SlotsReady(m, lib) && TextReady(m, sourceName)
  {
    assert lib.formatOf(lib.formatValue(value)) == Some(value);
    SourceStep(m[KeySourceColorFormat := Str(lib.formatValue(value))], lib, sourceName, true)
  }

  /** The session after `widget_color_format(key)`: the format widget's value
      is looked up as a format, which fails for an absent key or a non-member. */
  function ColorFormatStep(m0: map<Key, Value>, lib: Cocoon.Library, formatName: string, sourceName: string):
    (r: Result<map<Key, Value>, Exception>)
    requires PickerReady(m0, lib, sourceName)
    ensures r.Failure? <==> Widget(formatName) !in m0 || !m0[Widget(formatName)].Str?
                            || lib.formatOf(m0[Widget(formatName)].s).None?
    ensures r.Failure? ==> r.error == (if Widget(formatName) !in m0 then KeyError(Widget(formatName).Name()) else ValueError)
  {
    var userValue :- Read(m0, Widget(formatName));
    if !userValue.Str? || lib.formatOf(userValue.s).None? then
      Failure(ValueError)
    else
      ReadyInitialized(m0, lib, sourceName);
      Success(FormatStep(Initialized(m0, lib), lib, lib.formatOf(userValue.s).value, sourceName))
  }

  /** `widget_color_format`. */
  method WidgetColorFormat(session: Session, lib: Cocoon.Library, formatName: string, sourceName: string)
    returns (r: Result<(), Exception>)
    requires PickerReady(session.state, lib, sourceName)
    modifies session
    ensures ColorFormatStep(old(session.state), lib, formatName, sourceName).Success? ==>
      r.Success? && session.state == ColorFormatStep(old(session.state), lib, formatName, sourceName).value
    ensures ColorFormatStep(old(session.state), lib, formatName, sourceName).Failure? ==>
      r == Failure(ColorFormatStep(old(session.state), lib, formatName, sourceName).error)
      && session.state == old(session.state)
  {
    var userValue := Read(session.state, Widget(formatName));
    if userValue.Failure? {
      return Failure(userValue.error);
    }
    if !userValue.value.Str? || lib.formatOf(userValue.value.s).None? {
      return Failure(ValueError);
    }
    var value := lib.formatOf(userValue.value.s).value;
    ghost var m0 := session.state;
    ReadyInitialized(m0, lib, sourceName);
    var config := NewConfig(session, lib);
    session.state := session.state[KeySourceColorFormat := Str(lib.formatValue(value))];
    InitializedKeys(m0, lib);
    assert lib.formatOf(lib.formatValue(value)) == Some(value);
    assert PickerReady(session.state, lib, sourceName);
    InitializedFull(session.state, lib);
    WidgetColorSource(session, lib, sourceName, true);
    r := Success(());
  }

  /** After a format change the stored format is the chosen one and the text
      is the unchanged colour written in it. */
  lemma FormatStepRewritesText(m: map<Key, Value>, lib: Cocoon.Library, value: Cocoon.ColorStringFormat, sourceName: string)
    requires Cocoon.Lawful(lib) && SlotsReady(m, lib) && TextReady(m, sourceName)
    ensures var r := FormatStep(m, lib, value, sourceName);
      && UserSourceColorFormat(r, lib) == Success(value)
      && Widget(sourceName) in r
      && r[Widget(sourceName)] == Str(lib.convertColorToStr(StoredColor(m, lib), value))
      && r[KeySourceColor] == m[KeySourceColor]
      && r[KeySourceError] == Str("")
  {
    assert lib.formatOf(lib.formatValue(value)) == Some(value);
    var m1 := m[KeySourceColorFormat := Str(lib.formatValue(value))];
    SourceStepRegenerates(m1, lib, sourceName, true);
    SourceStepKeepsReady(m1, lib, sourceName, true);
  }
}
