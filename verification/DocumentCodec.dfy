/** How the provider metadata of a document is written to and read from its row. */
module MetadataCodec {
  import opened Wrappers
  import opened Sorting
  import opened TextSorting
  import Json

  type Metadata = seq<(string, string)>

  function PairsJson(pairs: Metadata): Json.Value {
    Json.Arr(seq(|pairs|, i requires 0 <= i < |pairs| => Json.Arr([Json.Str(pairs[i].0), Json.Str(pairs[i].1)])))
  }

  function Encode(metadata: Metadata): string {
    Json.Write(PairsJson(SortBy(BY_PAIR, metadata)))
  }

  function PairOf(v: Json.Value): Option<(string, string)> {
    match v
    case Arr(items) => if |items| == 2 && items[0].Str? && items[1].Str? then Some((items[0].s, items[1].s)) else None
    case _ => None
  }

  function PairsOf(items: seq<Json.Value>): Option<Metadata> {
    if items == [] then Some([])
    else
      match (PairsOf(items[..|items| - 1]), PairOf(items[|items| - 1]))
      case (Some(front), Some(pair)) => Some(front + [pair])
      case _ => None
  }

  /** `None` stands for the ValueError of text that is no list of pairs of strings. */
  function Decode(text: string): Option<Metadata> {
    match Json.Loads(text)
    case Some(Arr(items)) =>
      (match PairsOf(items)
       case Some(pairs) => Some(SortBy(BY_PAIR, pairs))
       case None => None)
    case _ => None
  }

  lemma {:induction false} PairsRead(pairs: Metadata)
    ensures PairsOf(PairsJson(pairs).items) == Some(pairs)
  {
    if pairs != [] {
      var front := pairs[..|pairs| - 1];
      PairsRead(front);
      assert PairsJson(pairs).items[..|pairs| - 1] == PairsJson(front).items;
      assert pairs == front + [pairs[|pairs| - 1]];
    }
  }

  lemma PairsExact(pairs: Metadata)
    ensures Json.Exact(PairsJson(pairs))
  {
  }

  /** Metadata reads back from its row in pair order, whatever characters it holds. */
  lemma MetadataRoundTrip(metadata: Metadata)
    ensures Decode(Encode(metadata)) == Some(SortBy(BY_PAIR, metadata))
  {
    var pairs := SortBy(BY_PAIR, metadata);
    PairsExact(pairs);
    Json.LoadsWrite(PairsJson(pairs));
    PairsRead(pairs);
    PairOrderFacts();
    SortSorted(BY_PAIR, metadata);
    SortOfSorted(BY_PAIR, pairs);
  }

  /** Two documents store the same metadata text exactly when they have the same pairs, repetitions included. */
  lemma SameMetadataIff(a: Metadata, b: Metadata)
    ensures Encode(a) == Encode(b) <==> multiset(a) == multiset(b)
  {
    PairOrderFacts();
    SortDependsOnElements(BY_PAIR, a, b);
    MetadataRoundTrip(a);
    MetadataRoundTrip(b);
  }
}
