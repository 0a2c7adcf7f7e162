/** A colour as the screens name it: an entry of the app's palette
    (`colors.danger[500]`), whose hex value lives in the theme file and is
    not part of this model, or a literal hex code. */
module Theme {
  datatype Color = Palette(family: string, shade: nat) | Hex(code: string)
}
