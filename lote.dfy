/**
 * The persons, the enemy, the unique ring and the scripted scenario.
 * The process-wide registry of living persons and the console are held by an
 * explicit `Monde` object that every person and ring refers to.
 */
module LotE {
  import opened Lieux
  import opened Registre
  import opened Journal

  /** The shared state: the living persons in order of creation, and every line printed so far. */
  class Monde {
    var vivants: seq<Personne>
    var journal: seq<Ligne>

    constructor ()
      ensures vivants == [] && journal == []
    {
      vivants := [];
      journal := [];
    }

    /** Prints one line on the console. */
    method Afficher(ligne: Ligne)
      modifies this`journal
      ensures journal == old(journal) + [ligne]
    {
      journal := journal + [ligne];
    }
  }

  class Personne {
    const nom: string
    var lieu: Lieu
    const monde: Monde

    /** A new person is placed at `lieu` and registered last among the living; nothing is printed. */
    constructor (nom: string, lieu: Lieu, monde: Monde)
      modifies monde
      ensures this.nom == nom && this.lieu == lieu && this.monde == monde
      ensures monde.vivants == old(monde.vivants) + [this]
      ensures monde.journal == old(monde.journal)
    {
      this.nom := nom;
      this.lieu := lieu;
      this.monde := monde;
      new;
      monde.vivants := monde.vivants + [this];
    }

    /** Moves to `lieu` and always prints the move, even to the place already occupied. */
    method Deplacer(lieu: Lieu)
      modifies this`lieu, monde`journal
      ensures this.lieu == lieu
      ensures monde.journal == old(monde.journal) + [Deplacement(nom, lieu)]
      ensures monde.vivants == old(monde.vivants)
    {
      this.lieu := lieu;
      monde.journal := monde.journal + [Deplacement(nom, this.lieu)];
    }

    /** Prints the death, then leaves the registry; dying while absent from it changes the registry not at all. */
    method Mourir()
      modifies monde
      ensures monde.journal == old(monde.journal) + [Mort(nom)]
      ensures monde.vivants == RetirerPremier(old(monde.vivants), this)
      ensures this !in old(monde.vivants) ==> monde.vivants == old(monde.vivants)
    {
      monde.journal := monde.journal + [Mort(nom)];
      monde.vivants := RetirerPremier(monde.vivants, this);
    }
  }

  /**
   * The unique ring: the ring's base state (name, owner) together with what the
   * enemy's ring adds to it, its creator and the place where it was created.
   */
  class Anneau {
    const nom: string
    var proprietaire: Personne
    const createur: Personne
    const creation: Lieu
    const monde: Monde

    /** The ring prints into the same world its creator lives in. */
    ghost predicate Valid() {
      createur.monde == monde
    }

    /**
     * Created by `createur`, who becomes its first owner: prints the creation line
     * at the creator's place, then the ownership line, and remembers that place.
     */
    constructor (nom: string, createur: Personne)
      modifies createur.monde`journal
      ensures Valid()
      ensures this.nom == nom && this.createur == createur && monde == createur.monde
      ensures proprietaire == createur && creation == createur.lieu
      ensures monde.journal == old(createur.monde.journal)
                               + [Creation(createur.lieu, nom, createur.nom), Possession(createur.nom, nom)]
    {
      this.nom := nom;
      this.createur := createur;
      this.monde := createur.monde;
      this.proprietaire := createur;
      this.creation := createur.lieu;
      new;
      monde.journal := monde.journal + [Creation(createur.lieu, nom, createur.nom)];
      DefinirProprietaire(createur);
    }

    /** Hands the ring to `personne` and prints one ownership line; nothing else changes. */
    method DefinirProprietaire(personne: Personne)
      modifies this`proprietaire, monde`journal
      ensures proprietaire == personne
      ensures monde.journal == old(monde.journal) + [Possession(personne.nom, nom)]
      ensures monde.vivants == old(monde.vivants)
    {
      proprietaire := personne;
      monde.journal := monde.journal + [Possession(proprietaire.nom, nom)];
    }

    /** The base destruction: prints one line and has no other effect. */
    method DetruireBase()
      modifies monde`journal
      ensures monde.journal == old(monde.journal) + [Detruit(nom)]
    {
      monde.journal := monde.journal + [Detruit(nom)];
    }

    /**
     * The owner becomes invisible unless the owner is the creator itself (the
     * very same person), who is all-powerful instead; the place plays no part.
     */
    method Utiliser()
      modifies monde`journal
      ensures monde.journal == old(monde.journal)
                               + [if proprietaire != createur then Invisible(proprietaire.nom)
                                  else ToutPuissant(proprietaire.nom)]
      ensures monde.vivants == old(monde.vivants)
    {
      if proprietaire != createur {
        monde.journal := monde.journal + [Invisible(proprietaire.nom)];
      } else {
        monde.journal := monde.journal + [ToutPuissant(proprietaire.nom)];
      }
    }

    /**
     * Prints the attempt. Away from the place of creation the ring refuses and
     * nothing else happens; at that place the ring is destroyed and its creator
     * dies, whoever the owner is.
     */
    method Detruire()
      requires Valid()
      modifies monde
      ensures proprietaire.lieu != creation ==>
                monde.journal == old(monde.journal)
                                 + [Tentative(proprietaire.lieu, proprietaire.nom), Refus]
                && monde.vivants == old(monde.vivants)
      ensures proprietaire.lieu == creation ==>
                monde.journal == old(monde.journal)
                                 + [Tentative(proprietaire.lieu, proprietaire.nom),
                                    Detruit(nom), Mort(createur.nom)]
                && monde.vivants == RetirerPremier(old(monde.vivants), createur)
    {
      monde.journal := monde.journal + [Tentative(proprietaire.lieu, proprietaire.nom)];
      if proprietaire.lieu != creation {
        monde.journal := monde.journal + [Refus];
      } else {
        DetruireBase();
        createur.Mourir();
      }
    }
  }

  /** An enemy is a person (`soi`) that can make a unique ring and keeps it once made. */
  class Ennemi {
    const soi: Personne
    var anneauUnique: Anneau?

    /** A ring once made is this enemy's own, named "unique". */
    ghost predicate Valid()
      reads this
    {
      anneauUnique != null ==>
        anneauUnique.createur == soi && anneauUnique.nom == "unique" && anneauUnique.Valid()
    }

    /** Built as a person is, with no ring yet. */
    constructor (nom: string, lieu: Lieu, monde: Monde)
      modifies monde
      ensures Valid() && fresh(soi) && anneauUnique == null
      ensures soi.nom == nom && soi.lieu == lieu && soi.monde == monde
      ensures monde.vivants == old(monde.vivants) + [soi]
      ensures monde.journal == old(monde.journal)
    {
      soi := new Personne(nom, lieu, monde);
      anneauUnique := null;
    }

    /**
     * The first call makes the ring at the enemy's current place and keeps it;
     * every later call returns that same ring and prints nothing.
     */
    method AnneauUnique() returns (a: Anneau)
      requires Valid()
      modifies this`anneauUnique, soi.monde`journal
      ensures Valid() && anneauUnique == a
      ensures a.createur == soi && a.nom == "unique" && a.monde == soi.monde
      ensures old(anneauUnique) != null ==>
                a == old(anneauUnique) && soi.monde.journal == old(soi.monde.journal)
      ensures old(anneauUnique) == null ==>
                fresh(a) && a.proprietaire == soi && a.creation == soi.lieu
                && soi.monde.journal == old(soi.monde.journal)
                                        + [Creation(soi.lieu, "unique", soi.nom),
                                           Possession(soi.nom, "unique")]
      ensures soi.monde.vivants == old(soi.monde.vivants)
    {
      if anneauUnique != null {
        return anneauUnique;
      }
      a := new Anneau("unique", soi);
      anneauUnique := a;
    }
  }

  /**
   * Whatever happens between two requests for the enemy's ring (the ring changes
   * hands, the enemy moves), the second request returns the ring of the first,
   * still tied to the place where the enemy stood at the first.
   */
  method AnneauUniqueIdempotent(sauron: Ennemi, autre: Personne, ailleurs: Lieu)
    returns (premier: Anneau, second: Anneau)
    requires sauron.Valid() && sauron.anneauUnique == null
    modifies sauron, sauron.soi, sauron.soi.monde
    ensures second == premier && second.creation == old(sauron.soi.lieu)
    ensures second.createur == sauron.soi && second.proprietaire == autre
  {
    premier := sauron.AnneauUnique();
    premier.DefinirProprietaire(autre);
    sauron.soi.Deplacer(ailleurs);
    second := sauron.AnneauUnique();
  }

  /** The lines the scenario prints, in order. */
  function TraceLotR(): seq<Ligne> {
    [
      Etape("-1-"),
      Creation(Destin, "unique", "Sauron"),
      Possession("Sauron", "unique"),
      Etape("-2-"),
      ToutPuissant("Sauron"),
      Etape("-3-"),
      Possession("Frodon", "unique"),
      Etape("-4-"),
      Invisible("Frodon"),
      Etape("-5-"),
      Tentative(Comte, "Frodon"),
      Refus,
      Etape("-6-"),
      Deplacement("Frodon", Destin),
      Etape("-7-"),
      Tentative(Destin, "Frodon"),
      Detruit("unique"),
      Mort("Sauron"),
      Etape("---")
    ]
  }

  /**
   * Steps 2 to 4 of the scenario, with Sauron holding his ring: he uses it and
   * is all-powerful, hands it to Frodon, who uses it and becomes invisible.
   */
  method TransmettreAFrodon(monde: Monde, frodon: Personne, sauron: Personne, anneau: Anneau)
    requires anneau.monde == monde && anneau.proprietaire == sauron == anneau.createur && frodon != sauron
    modifies monde`journal, anneau`proprietaire
    ensures monde.journal == old(monde.journal)
                             + [Etape("-2-"), ToutPuissant(sauron.nom),
                                Etape("-3-"), Possession(frodon.nom, anneau.nom),
                                Etape("-4-"), Invisible(frodon.nom)]
    ensures anneau.proprietaire == frodon && monde.vivants == old(monde.vivants)
  {
    monde.Afficher(Etape("-2-"));
    anneau.Utiliser();

    monde.Afficher(Etape("-3-"));
    anneau.DefinirProprietaire(frodon);

    monde.Afficher(Etape("-4-"));
    anneau.Utiliser();
  }

  /**
   * Steps 5 to 7 of the scenario, with Frodon holding the ring in the Shire:
   * the first attempt is refused, Frodon goes to Mount Doom, the second attempt
   * destroys the ring and kills Sauron.
   */
  method DetruireAuDestin(monde: Monde, frodon: Personne, sauron: Personne, anneau: Anneau)
    requires anneau.Valid() && anneau.monde == monde && frodon.monde == monde
    requires anneau.proprietaire == frodon && anneau.createur == sauron && frodon != sauron
    requires frodon.lieu == Comte && anneau.creation == Destin
    requires monde.vivants == [frodon, sauron]
    modifies monde, frodon
    ensures monde.journal == old(monde.journal)
                             + [Etape("-5-"), Tentative(Comte, frodon.nom), Refus,
                                Etape("-6-"), Deplacement(frodon.nom, Destin),
                                Etape("-7-"), Tentative(Destin, frodon.nom), Detruit(anneau.nom), Mort(sauron.nom),
                                Etape("---")]
    ensures monde.vivants == [frodon] && frodon.lieu == Destin && anneau.proprietaire == frodon
  {
    monde.Afficher(Etape("-5-"));
    anneau.Detruire();

    monde.Afficher(Etape("-6-"));
    frodon.Deplacer(Destin);

    monde.Afficher(Etape("-7-"));
    anneau.Detruire();

    monde.Afficher(Etape("---"));
    RetirerApresAjout([frodon], sauron);
  }

  /**
   * The scripted scenario. It prints exactly the lines of `TraceLotR` and ends with Sauron
   * dead, Frodon the only one alive, at Mount Doom and holding the ring.
   */
  method LotR() returns (monde: Monde, frodon: Personne, sauron: Ennemi, anneau: Anneau)
    ensures monde.journal == TraceLotR()
    ensures monde.vivants == [frodon] && sauron.soi !in monde.vivants
    ensures frodon.lieu == Destin && anneau.proprietaire == frodon && anneau.createur == sauron.soi
  {
    monde := new Monde();
    frodon := new Personne("Frodon", Comte, monde);
    sauron := new Ennemi("Sauron", Destin, monde);

    monde.Afficher(Etape("-1-"));
    anneau := sauron.AnneauUnique();

    TransmettreAFrodon(monde, frodon, sauron.soi, anneau);
    DetruireAuDestin(monde, frodon, sauron.soi, anneau);
  }
}
