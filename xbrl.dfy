/**
 * The decoded XBRL document, as the external decoder hands it to the parser:
 * an ordered list of facts and a table of contexts keyed by context id.
 * Only the attributes the parser consults are kept.
 */
module Xbrl {
  import opened Wrappers

  /**
   * One tagged datum. `name` is the concept's local XML name, `contextRef` the id
   * of its context and `valueStr` its raw text. `valid` stands for the decoder's
   * validity check and `numeric` for its numeric conversion: None when the raw
   * text is not a number.
   */
  datatype Fact = Fact(
    name: string,
    contextRef: string,
    valueStr: string,
    valid: bool,
    numeric: Option<real>)

  /**
   * The period a fact applies to. `instant` is the date of an instant period
   * (section 4.7.2 of the XBRL 2.1 specification); a duration period has none.
   */
  datatype Context = Context(instant: Option<string>)
}
