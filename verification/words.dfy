/** Words are the product identifiers of an assembly network: plain character
    strings, combined by concatenation. */
module Words {
  type Word = seq<char>

  /** Every character of `w`, as a one-character word, belongs to `atoms`. */
  predicate AllCharsIn(w: Word, atoms: set<Word>) {
    forall k | 0 <= k < |w| :: [w[k]] in atoms
  }

  /** A concatenation is spelled with `atoms` exactly when both parts are. */
  lemma AllCharsInJoin(x: Word, y: Word, atoms: set<Word>)
    ensures AllCharsIn(x + y, atoms) <==> AllCharsIn(x, atoms) && AllCharsIn(y, atoms)
  {
    assert forall k | 0 <= k < |x| :: (x + y)[k] == x[k];
    assert forall k | 0 <= k < |y| :: (x + y)[|x| + k] == y[k];
  }
}
