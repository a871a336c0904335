/** The inputs the add-song form and the song card's edit form share. */
module FormField {
  /** The four inputs, named as their `name` attributes: title, author, length and cover. */
  datatype Field = Title | Author | Length | Cover
}
