/** The records the menu is built from and the ring positions it derives from them. */
module MenuTypes {

  /** A subcategory: an id unique within its parent, and a display name. */
  datatype Subcategory = Subcategory(id: string, name: string)

  /**
   * A category of the ring. A category whose record has no subcategory list is
   * the one with the empty list: the component reads a missing list as empty.
   */
  datatype Category = Category(id: string, name: string, subcategories: seq<Subcategory>)

  /** One ring entry: the category's id, its angle in radians, its centre and the category itself. */
  datatype RingPosition = RingPosition(id: string, angle: real, x: real, y: real, category: Category)
}
