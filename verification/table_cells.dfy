/** Cells and paging setup of the admin category and tag tables that the
    tables compute themselves rather than leaving to the grid library. */
module TableCells {
  import opened Wrappers
  import opened Text

  /** The text shown when a record has no description. */
  const NoDescription := "Không có mô tả"

  /** The description cell: `description || "Không có mô tả"`. */
  function DescriptionCell(description: Option<string>): (shown: string)
    ensures shown != ""
    ensures shown == NoDescription <==> !Truthy(description) || description.value == NoDescription
    ensures Truthy(description) ==> shown == description.value
  {
    OrElse(description, NoDescription)
  }

  /** Page size both tables start with. */
  const InitialPageSize := 10

  /** Page sizes the tag table's selector offers. */
  const TagPageSizes := [5, 10, 20, 30, 40, 50]

  /** Page sizes the category table's selector offers. */
  const CategoryPageSizes := [5, 10, 20, 30, 50]

  /** The initial page size is one the selectors offer, so the selector
      always shows the current size; every offered size is positive. */
  lemma InitialPageSizeOffered()
    ensures InitialPageSize in TagPageSizes && InitialPageSize in CategoryPageSizes
    ensures forall n :: n in TagPageSizes ==> n > 0
    ensures forall n :: n in CategoryPageSizes ==> n in TagPageSizes
  {
  }
}
