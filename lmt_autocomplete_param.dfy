/**
 * The input of the autocomplete widget: which items to offer and which of their
 * attributes to display, to match the typed query against, and to identify them by.
 */
module LmtAutocompleteParam {

  /**
   * A datasource entry. The source types entries as `any` and reads them by
   * attribute name. The display and filter attributes hold strings; key values
   * are only compared for equality, and are modelled as strings too.
   */
  type Item = map<string, string>

  /**
   * The filter mode requested by the host form. `Unrecognized` stands for any
   * other runtime value that reaches the widget.
   */
  datatype ResearchFilter = Natural | Normalized | Unrecognized(raw: string)

  /**
   * The parameter object. The datasource is the list of items itself (the
   * widget slices and filters it as an array); `researchFilter` is the mode the
   * host form sets beside the four declared attributes.
   */
  datatype Parameter = Parameter(
    datasource: seq<Item>,
    attributeNameToDisplay: string,
    attributeNameForFilter: string,
    attributeNameKey: string,
    researchFilter: ResearchFilter)

  /** Every item carries attribute `attr`, so reading it never yields `undefined`. */
  predicate AllHave(items: seq<Item>, attr: string)
  {
    forall i :: 0 <= i < |items| ==> attr in items[i]
  }
}
