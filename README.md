# The One Ring, modelled in Dafny

A model of `src/LotE.java`, a small deterministic simulation in which a ring behaves
differently depending on who owns it and where that owner stands. The program keeps a
process-wide registry of living persons (`Personne`), lets an enemy (`Ennemi`) make its
unique ring (`Anneau`) lazily, and runs one fixed script (`LotR`) whose only output is a
sequence of console lines.

The model is imperative, like the source:

- `lieux.dfy` (module `Lieux`): the `Lieu` enumeration and the label each place prints as.
- `registre.dfy` (module `Registre`): the registry operation the source relies on,
  removal of the first occurrence of a person from an ordered list, as the function
  `RetirerPremier`, with the lemmas that pin it down.
- `journal.dfy` (module `Journal`): one `Ligne` constructor per console line format, and
  `Ligne.Texte()`, the exact text of each line (src/LotE.java:71, 88, 98, 133, 140, 207,
  209, 214, 216).
- `lote.dfy` (module `LotE`): the classes. `Monde` holds what the Java program keeps in
  static and global state: `vivants`, the registry of living persons (the static list of
  src/LotE.java:112), and `journal`, every line printed so far (standard output). Each
  `Personne` and each `Anneau` refers to its `Monde`. `Personne` updates `lieu` in place,
  `Anneau` updates `proprietaire` in place, `Ennemi` fills its ring cache in place.
  The scenario `LotR` runs the script and proves the whole trace and the final state.

Modelling choices:

- `Ennemi` extends `Personne` in Java. Here an `Ennemi` holds its person part as
  `soi: Personne`; the ring's creator is that `Personne` object, and "the owner is the
  creator" is reference equality with it, as `proprietaire() != Ennemi.this` is in Java.
- The abstract class `Anneau` has a single concrete kind, the anonymous ring made by
  `Ennemi.anneauUnique`. The class `Anneau` of the model is that ring: the base state
  (`nom`, `proprietaire`) plus the captured `createur` and `creation`. The base
  destruction that the override calls through `super.detruire()` is `Anneau.DetruireBase`.
- Construction of the ring prints the creation line and then exactly one ownership line,
  through `definirProprietaire` (src/LotE.java:71-72). A second ownership line appears
  only on an explicit transfer. This is what the code does; a reading that counts two
  ownership lines at construction does not match it.
- `mourir` on a person no longer registered prints its line and leaves the registry as
  it is, as `List.remove(Object)` does when the element is absent.
- `LotR` is split, for the verifier's sake, into its first step and two helper methods
  that run steps 2 to 4 and 5 to 7 in the source's order; the statements are those of
  src/LotE.java:15-41.

## Model

| member | source | states |
|---|---|---|
| Lieux.LibelleInjectif | src/LotE.java:233-254 | the two places print different labels: equal labels exactly when equal places |
| Registre.PremierIndice | src/LotE.java:141 | the index found holds the person and no earlier position does |
| Registre.RetirerPremier | src/LotE.java:141 | removing an absent person leaves the list unchanged; removing a present one shortens it by exactly one |
| Registre.RetirerPremierMultiset | src/LotE.java:141 | removal takes away exactly one occurrence of the person and nothing else |
| Registre.RetirerPremierTranche | src/LotE.java:141 | removal cuts out the element at the first occurrence; all other persons keep their order |
| Registre.RetirerPremierAutres | src/LotE.java:141 | any other person is registered after the removal exactly when before |
| Registre.RetirerApresAjout | src/LotE.java:120-142 | a person registered at construction and then dying leaves the registry as it was before that person existed |
| Journal.TextesUtiliserDistincts | src/LotE.java:205-211 | the "invisible" and "all-powerful" lines differ for any owner names, so the branch taken by `utiliser` is visible on the console |
| Journal.TextesDetruireDistincts | src/LotE.java:213-220 | the refusal line never coincides with the base destruction line, whatever the ring's name |
| LotE.Monde.constructor | src/LotE.java:112 | the registry of living persons starts empty and nothing has been printed |
| LotE.Monde.Afficher | src/LotE.java:19 | printing a line appends it to the output and changes nothing else |
| LotE.Personne.constructor | src/LotE.java:120-124 | the new person has the given name and place, is appended at the end of the registry, and nothing is printed |
| LotE.Personne.Deplacer | src/LotE.java:131-134 | the place becomes the given one and one move line is printed, even when the place does not change; the registry is untouched |
| LotE.Personne.Mourir | src/LotE.java:139-142 | prints the death line; the registry loses the person's first occurrence, and is unchanged if the person was not in it |
| LotE.Anneau.constructor | src/LotE.java:69-73 | the creator owns the new ring and the place of creation is the creator's current place; exactly the creation line then one ownership line are printed |
| LotE.Anneau.DefinirProprietaire | src/LotE.java:96-99 | the owner becomes the given person and exactly one ownership line is printed; places, the registry and the ring's name are untouched |
| LotE.Anneau.DetruireBase | src/LotE.java:87-89 | prints the destruction line and has no other effect |
| LotE.Anneau.Utiliser | src/LotE.java:205-211 | prints "invisible" exactly when the owner is not the creator object, "all-powerful" otherwise, whatever the place; no state changes |
| LotE.Anneau.Detruire | src/LotE.java:213-221 | away from the place of creation: the attempt and refusal lines only, registry unchanged; at it: attempt, base destruction and the creator's death lines, and the creator leaves the registry; owner and places never change |
| LotE.Ennemi.constructor | src/LotE.java:187-189 | an enemy is registered like any person and has no ring yet |
| LotE.Ennemi.AnneauUnique | src/LotE.java:196-225 | the first call makes a fresh ring owned by and tied to the enemy at its current place, printing two lines; later calls return the same ring and print nothing |
| LotE.AnneauUniqueIdempotent | src/LotE.java:196-203 | after the ring changes hands and the enemy moves, a second request returns the first ring, whose place of creation is still the enemy's place at the first request |
| LotE.TransmettreAFrodon | src/LotE.java:22-29 | steps 2 to 4 print the all-powerful line, the transfer line and the invisible line, and leave Frodon the owner |
| LotE.DetruireAuDestin | src/LotE.java:31-40 | steps 5 to 7: the first attempt is refused with nobody dying, the move is printed, the second attempt kills Sauron, leaving only Frodon alive |
| LotE.LotR | src/LotE.java:15-41 | the script prints exactly the lines of `TraceLotR` in order, Sauron dies only after the second destruction, and the run ends with Frodon alone alive, at Mount Doom and owning the ring |

## Left out

- `finalize()` and `System.gc()` (src/LotE.java:150-152, 50): a garbage-collector hook whose output is not deterministic; its farewell line is not part of the model.
- `main` (src/LotE.java:48-51): it only runs the scenario, which is `LotE.LotR`.
- The accessors `proprietaire()`, `lieu()` and `nom()` (src/LotE.java:80-82, 159-161, 168-170): the model reads the fields directly.
- The abstract `utiliser()` and construction of a ring with an owner other than its creator: the source has no other kind of ring and no other call site.
- Console formatting: lines are `Ligne` values and `Ligne.Texte()` gives their characters; the character-level text of the whole scenario is not proved, only its sequence of `Ligne` values.
- `Personne.nom` is a mutable field in Java that is never reassigned; it is a constant here.
- The static list is a `java.util.LinkedList`; the model uses a sequence and its remove-first-occurrence function.
