/** The `Owner` value object: the owner's name and identity document. */
module OwnerValue {

  datatype Owner = Owner(name: string, document: string)

  /** `owner.equals(other)`: both name and document must match. */
  function Equals(o: Owner, other: Owner): (r: bool)
    ensures r <==> o == other
  {
    o.name == other.name && o.document == other.document
  }

  /** `equals` is reflexive, symmetric and transitive. */
  lemma EqualsIsEquivalence(a: Owner, b: Owner, c: Owner)
    ensures Equals(a, a)
    ensures Equals(a, b) ==> Equals(b, a)
    ensures Equals(a, b) && Equals(b, c) ==> Equals(a, c)
  {
  }
}
