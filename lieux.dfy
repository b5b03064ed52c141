/** The places of the scenario (the `Lieu` enumeration). */
module Lieux {

  /** A closed set of places; each one carries the label shown wherever it is printed. */
  datatype Lieu = Comte | Destin {

    /** The label `toString()` returns for this place. */
    function Libelle(): string {
      match this
      case Comte => "La Comté"
      case Destin => "Le Mont du Destin"
    }
  }

  /** Two places print the same label exactly when they are the same place. */
  lemma LibelleInjectif(a: Lieu, b: Lieu)
    ensures a.Libelle() == b.Libelle() <==> a == b
  {
  }
}
