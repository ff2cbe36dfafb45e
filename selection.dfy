/** Multi-select state kept as a JavaScript `Set` of product ids: the
    `toggleProductSelection` handler shared by the product grid, the admin
    product search and the saved-products list. */
module Selection {

  type ProductId = string

  /** Copy the set, then delete `id` if present, else add it. */
  function Toggled(selected: set<ProductId>, id: ProductId): (r: set<ProductId>)
    ensures id in r <==> id !in selected
    ensures forall other :: other != id ==> (other in r <==> other in selected)
    ensures |r| == if id in selected then |selected| - 1 else |selected| + 1
  {
    if id in selected then selected - {id} else selected + {id}
  }

  /** Clicking the same checkbox twice leaves the selection as it was. */
  lemma ToggleTwice(selected: set<ProductId>, id: ProductId)
    ensures Toggled(Toggled(selected, id), id) == selected
  {
  }

  /** Toggles of two different ids commute. */
  lemma ToggleCommutes(selected: set<ProductId>, a: ProductId, b: ProductId)
    ensures Toggled(Toggled(selected, a), b) == Toggled(Toggled(selected, b), a)
  {
  }
}
