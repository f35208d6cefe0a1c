/** The word lists of `name-generator.js`. */
module Words {
  import opened NameHash

  const ADJECTIVES: seq<string> := [
    "Hızlı", "Mavi", "Kırmızı", "Yeşil", "Mor", "Turuncu", "Sarı", "Gümüş", "Altın", "Siyah", "Güçlü",
    "Parlak", "Sessiz", "Cesur", "Akıllı", "Neşeli", "Meraklı", "Sakin", "Özgür", "Hevesli", "Derin", "Yüksek",
    "Gizli", "Büyük", "Küçük", "Eski", "Yeni", "Sıcak", "Soğuk", "Işıltılı", "Keskin", "Süratli", "Kocaman",
    "Korkusuz", "Gizemli", "Kahraman", "Asil", "Fırtınalı", "Güzel", "Yıldırım"
  ]

  const NOUNS: seq<string> := [
    "Kaplan", "Kartal", "Aslan", "Kurt", "Panter", "Şahin", "Ejderha", "Tilki", "Ayı", "Balina", "Bulut",
    "Yıldız", "Güneş", "Ay", "Fırtına", "Şimşek", "Rüzgar", "Ateş", "Deniz", "Dağ", "Elmas", "Demir", "Çelik",
    "Mercan", "Kristal", "Granit", "Volkan", "Akik", "Obsidyen", "Kaya", "Robot", "Roket", "Uçak", "Gemi",
    "Kalkan", "Kılıç", "Kule", "Köprü", "Kapı", "Anahtar"
  ]

  const WORDS := Lexicon(ADJECTIVES, NOUNS)

  /** Both lists have the length the name generator divides by, so its results hold of them. */
  lemma ListsAreComplete()
    ensures WORDS.Valid()
    ensures WORDS.adjectives[0] == "Hızlı" && WORDS.adjectives[39] == "Yıldırım"
    ensures WORDS.nouns[0] == "Kaplan" && WORDS.nouns[39] == "Anahtar"
  {
    assert |ADJECTIVES| == 40 && |NOUNS| == 40;
  }

  /** The names of the program, over any sequence of calls. */
  method DisplayNames(ids: seq<seq<CodeUnit>>) returns (names: seq<DisplayName>)
    ensures WORDS.Valid() && names == NamesFor(WORDS, ids)
  {
    ListsAreComplete();
    names := NamesOf(WORDS, ids);
  }
}
