/** The console lines the program prints: one constructor per line format, and the text it prints as. */
module Journal {
  import opened Lieux

  datatype Ligne =
    | Etape(marque: string)                                 // the scenario's step labels
    | Creation(lieu: Lieu, anneau: string, createur: string) // the ring's constructor
    | Possession(proprietaire: string, anneau: string)       // every change of owner
    | Detruit(anneau: string)                                // the ring's base destruction
    | Deplacement(nom: string, lieu: Lieu)                   // a person's move
    | Mort(nom: string)                                      // a person's death
    | Invisible(nom: string)                                 // the unique ring used by another
    | ToutPuissant(nom: string)                              // the unique ring used by its creator
    | Tentative(lieu: Lieu, nom: string)                     // every attempt to destroy the unique ring
    | Refus                                                  // the unique ring away from its place of creation
  {
    /** The text of the line as it appears on the console. */
    function Texte(): string {
      match this
      case Etape(marque) => marque
      case Creation(lieu, anneau, createur) =>
        lieu.Libelle() + ": création de l'anneau " + anneau + " par " + createur + "!"
      case Possession(proprietaire, anneau) => proprietaire + " possède l'anneau " + anneau + "."
      case Detruit(anneau) => "L'anneau " + anneau + " est détruit."
      case Deplacement(nom, lieu) => nom + " se déplace: " + lieu.Libelle()
      case Mort(nom) => nom + " meurt!"
      case Invisible(nom) => nom + " devient invisible!"
      case ToutPuissant(nom) => nom + " est tout-puissant!"
      case Tentative(lieu, nom) => lieu.Libelle() + ": " + nom + " tente de détruire l'anneau unique..."
      case Refus => "L'anneau unique ne peut être détruit que là où il a été créé."
    }
  }

  /**
   * The two outcomes of using the unique ring can always be told apart on the
   * console, whatever the names of the persons involved.
   */
  lemma TextesUtiliserDistincts(a: string, b: string)
    ensures Invisible(a).Texte() != ToutPuissant(b).Texte()
  {
    var i, t := Invisible(a).Texte(), ToutPuissant(b).Texte();
    if |i| == |t| {
      assert i[|i| - 2] == 'e';
      assert t[|t| - 2] == 't';
    }
  }

  /**
   * A refused destruction never prints the line of a destruction that happened,
   * whatever the ring's name.
   */
  lemma TextesDetruireDistincts(anneau: string)
    ensures Refus.Texte() != Detruit(anneau).Texte()
  {
    var r, d := Refus.Texte(), Detruit(anneau).Texte();
    if |d| == |r| {
      assert d[|d| - 2] == 't';
      assert r[|r| - 2] == 'é';
    }
  }
}
