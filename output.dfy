/**
 * What the renderer writes, as a sequence of output events rather than
 * bytes. Line wrapping, column layout and centring belong to libraries
 * outside this model, so the events that use them record their input (the
 * text, the indents, the word separator, the cells) and not their layout.
 */
module Output {

  /** How `textwrap` cuts a text into words: its default, or `split_inclusive(", ")`. */
  datatype WordSeparator = DefaultWords | CommaSpace

  datatype Out =
    /** `writeln!(w, "{}", text)`: the text and a line break. */
    | Line(text: string)
    /** `writeln!(w, "{: ^width$}", text)`: the text centred in the terminal width. */
    | Centered(text: string)
    /** `write!(w, "{table}")`: one aligned line per row of cells. */
    | Table(rows: seq<seq<string>>)
    /** `print_wrapped_with_options`: the text wrapped to the terminal width, one line each. */
    | Wrapped(text: string, initialIndent: string, subsequentIndent: string, words: WordSeparator)
}
