/** The normalised descriptor every decoder produces (ModDetails). Every field
    starts empty; a decoder fills in the ones its format carries. */
module ModDetailsModel {

  datatype ModDetails = ModDetails(
    mod_id: string,
    name: string,
    version: string,
    mcversion: string,
    homeurl: string,
    updateurl: string,
    description: string,
    authors: seq<string>,
    credits: string)

  /** A freshly made ModDetails, before any field is assigned. */
  const Blank: ModDetails := ModDetails("", "", "", "", "", "", "", [], "")
}
