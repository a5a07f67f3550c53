/** The admin panel: the shared add-news form with four categories. */
module AdminPage {
  import opened NewsEditor
  import PublisherDashboard

  /** The category choices, in menu order. */
  const Categories: seq<string> := ["General", "Tech", "Business", "Entertainment"]

  /** The admin's choices are the studio's first four; the reset draft's category is
      among them. */
  lemma CategoriesAmongStudio()
    ensures Categories == PublisherDashboard.Categories[..4]
    ensures EmptyDraft.category in Categories
  {
  }
}
