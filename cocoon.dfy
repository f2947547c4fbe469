/** The colour library the application is built on, seen from outside. Its
    types are abstract and its operations are the fields of a record, so the
    model states what the application does with them and nothing about how
    they compute. */
module Cocoon {
  import opened Wrappers

  /** RGBAColor: a colour with its colourspace. */
  type Color(==, !new)

  /** RgbColorspace: a named RGB colourspace. */
  type Colorspace(==, !new)

  /** The colour-science library's own colourspace object. */
  type ColourColorspace

  /** ColorStringFormat: the enum of text notations for a colour. */
  type ColorStringFormat(==, !new)

  datatype Library = Library(
    black: Color,                                   // RGBAColor(0.0, 0.0, 0.0)
    sRGB: Colorspace,                               // sRGB_COLORSPACE
    floatD4: ColorStringFormat,                     // ColorStringFormat.float_d4
    formatValue: ColorStringFormat -> string,       // member.value
    formatOf: string -> Option<ColorStringFormat>,  // ColorStringFormat(value), None for a non-member
    asLinearCopy: Colorspace -> Colorspace,
    asColorspace: (Color, Colorspace) -> Color,
    asColourColorspace: Colorspace -> ColourColorspace,
    toArray: Color -> seq<real>,                    // to_array(alpha=False)
    validateColorStr: (string, ColorStringFormat) -> bool,  // validate_color_str(...) != invalid
    fixColorStr: (string, ColorStringFormat) -> string,
    convertStrToColor: (string, ColorStringFormat) -> Color,
    convertColorToStr: (Color, ColorStringFormat) -> string)

  /** What the application relies on: ColorStringFormat is a Python enum, so a
      lookup by a member's value gives that member back. */
  ghost predicate Lawful(lib: Library) {
    forall f :: lib.formatOf(lib.formatValue(f)) == Some(f)
  }
}
