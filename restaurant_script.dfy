/** The script of _Archive_files/res.py: 71 dialogue lines in nine scenes
    (`DIALOGUE_LINES`) and 29 vocabulary items (`VOCAB_LINES`), each a tuple
    of id, French text, speaker role and section id, with the fact about the
    table that keeps the audio files apart: no two lines share an id. */
module RestaurantScript {

  /** One `(line_id, text, role, section)` tuple. */
  datatype ScriptLine = ScriptLine(id: string, text: string, role: string, section: string)

  /** Lines 34-43. */
  const Sec1: seq<ScriptLine> := [
    ScriptLine("d001", "Bonjour, bienvenue !", "serveur", "sec1"),
    ScriptLine("d002", "Vous avez une réservation ?", "serveur", "sec1"),
    ScriptLine("d003", "Oui, nous avons une réservation au nom de.", "client", "sec1"),
    ScriptLine("d004", "Non, nous n’avons pas de réservation.", "client", "sec1"),
    ScriptLine("d005", "Vous êtes combien ?", "serveur", "sec1"),
    ScriptLine("d006", "Nous sommes deux.", "client", "sec1"),
    ScriptLine("d007", "Suivez-moi, s’il vous plaît.", "serveur", "sec1"),
    ScriptLine("d008", "Vous préférez être à l’intérieur ou en terrasse ?", "serveur", "sec1"),
    ScriptLine("d009", "Est-ce qu’on peut avoir une table près de la fenêtre ?", "client", "sec1"),
    ScriptLine("d010", "Bien sûr, installez-vous.", "serveur", "sec1")
  ]

  /** Lines 45-53. */
  const Sec2: seq<ScriptLine> := [
    ScriptLine("d011", "Voici la carte.", "serveur", "sec2"),
    ScriptLine("d012", "Je vous laisse quelques minutes.", "serveur", "sec2"),
    ScriptLine("d013", "Vous avez des questions sur la carte ?", "serveur", "sec2"),
    ScriptLine("d014", "Vous voulez un conseil ?", "serveur", "sec2"),
    ScriptLine("d015", "Qu’est-ce que vous recommandez ?", "client", "sec2"),
    ScriptLine("d016", "Le plat du jour, c’est le poisson grillé.", "serveur", "sec2"),
    ScriptLine("d017", "C’est un plat assez épicé, ça vous va ?", "serveur", "sec2"),
    ScriptLine("d018", "Oui, ça me va.", "client", "sec2"),
    ScriptLine("d019", "Je préfère quelque chose de moins épicé.", "client", "sec2")
  ]

  /** Lines 55-61. */
  const Sec3: seq<ScriptLine> := [
    ScriptLine("d020", "Qu’est-ce que vous voulez boire ?", "serveur", "sec3"),
    ScriptLine("d021", "Vous voulez commencer par une boisson ?", "serveur", "sec3"),
    ScriptLine("d022", "De l’eau plate ou gazeuse ?", "serveur", "sec3"),
    ScriptLine("d023", "Une carafe d’eau, s’il vous plaît.", "client", "sec3"),
    ScriptLine("d024", "Vous voulez du vin avec votre repas ?", "serveur", "sec3"),
    ScriptLine("d025", "Je vais prendre un verre de vin rouge.", "client", "sec3"),
    ScriptLine("d026", "Je vais prendre une bière, s’il vous plaît.", "client", "sec3")
  ]

  /** Lines 63-73. */
  const Sec4: seq<ScriptLine> := [
    ScriptLine("d027", "Vous avez choisi ?", "serveur", "sec4"),
    ScriptLine("d028", "Je peux prendre votre commande ?", "serveur", "sec4"),
    ScriptLine("d029", "Oui, c’est bon.", "client", "sec4"),
    ScriptLine("d030", "Pas encore, encore quelques minutes, s’il vous plaît.", "client", "sec4"),
    ScriptLine("d031", "Qu’est-ce que vous prenez comme entrée ?", "serveur", "sec4"),
    ScriptLine("d032", "Comme entrée, je vais prendre la soupe du jour.", "client", "sec4"),
    ScriptLine("d033", "Et comme plat principal ?", "serveur", "sec4"),
    ScriptLine("d034", "Comme plat principal, je vais prendre le poulet rôti.", "client", "sec4"),
    ScriptLine("d035", "Vous voulez un dessert ?", "serveur", "sec4"),
    ScriptLine("d036", "Oui, je vais prendre une crème brûlée.", "client", "sec4"),
    ScriptLine("d037", "Non, merci.", "client", "sec4")
  ]

  /** Lines 75-81. */
  const Sec5: seq<ScriptLine> := [
    ScriptLine("d038", "Avec ça, vous voulez des frites ou de la salade ?", "serveur", "sec5"),
    ScriptLine("d039", "Des frites, s’il vous plaît.", "client", "sec5"),
    ScriptLine("d040", "Et la cuisson du steak ? Saignant, à point ou bien cuit ?", "serveur", "sec5"),
    ScriptLine("d041", "À point, s’il vous plaît.", "client", "sec5"),
    ScriptLine("d042", "Vous voulez du pain avec ça ?", "serveur", "sec5"),
    ScriptLine("d043", "Oui, s’il vous plaît.", "client", "sec5"),
    ScriptLine("d044", "Non merci.", "client", "sec5")
  ]

  /** Lines 83-90. */
  const Sec6: seq<ScriptLine> := [
    ScriptLine("d045", "Vous avez des allergies ?", "serveur", "sec6"),
    ScriptLine("d046", "Oui, je suis allergique aux noix.", "client", "sec6"),
    ScriptLine("d047", "D’accord, je vais le signaler en cuisine.", "serveur", "sec6"),
    ScriptLine("d048", "Vous mangez de la viande ?", "serveur", "sec6"),
    ScriptLine("d049", "Je ne mange pas de porc.", "client", "sec6"),
    ScriptLine("d050", "Je ne mange pas de produits laitiers.", "client", "sec6"),
    ScriptLine("d051", "Est-ce que ce plat contient du lait ?", "client", "sec6"),
    ScriptLine("d052", "Est-ce que ce plat contient du gluten ?", "client", "sec6")
  ]

  /** Lines 92-98. */
  const Sec7: seq<ScriptLine> := [
    ScriptLine("d053", "Tout se passe bien ?", "serveur", "sec7"),
    ScriptLine("d054", "Ça vous plaît ?", "serveur", "sec7"),
    ScriptLine("d055", "Oui, c’est très bon.", "client", "sec7"),
    ScriptLine("d056", "C’est un peu trop salé.", "client", "sec7"),
    ScriptLine("d057", "Je vous rapporte un peu d’eau ?", "serveur", "sec7"),
    ScriptLine("d058", "Oui, merci.", "client", "sec7"),
    ScriptLine("d059", "Non merci.", "client", "sec7")
  ]

  /** Lines 100-109. */
  const Sec8: seq<ScriptLine> := [
    ScriptLine("d060", "L’addition, s’il vous plaît.", "client", "sec8"),
    ScriptLine("d061", "Je vous apporte l’addition tout de suite.", "serveur", "sec8"),
    ScriptLine("d062", "Vous payez ensemble ou séparément ?", "serveur", "sec8"),
    ScriptLine("d063", "On va payer séparément, s’il vous plaît.", "client", "sec8"),
    ScriptLine("d064", "Vous payez par carte ou en espèces ?", "serveur", "sec8"),
    ScriptLine("d065", "Par carte, s’il vous plaît.", "client", "sec8"),
    ScriptLine("d066", "En espèces.", "client", "sec8"),
    ScriptLine("d067", "Je reviens avec la machine.", "serveur", "sec8"),
    ScriptLine("d068", "C’était bon ?", "serveur", "sec8"),
    ScriptLine("d069", "Oui, c’était délicieux, merci.", "client", "sec8")
  ]

  /** Lines 111-112. */
  const Sec9: seq<ScriptLine> := [
    ScriptLine("d070", "Merci, bonne soirée !", "serveur", "sec9"),
    ScriptLine("d071", "Merci, au revoir.", "client", "sec9")
  ]

  /** Lines 119-128. */
  const Vocab1: seq<ScriptLine> := [
    ScriptLine("v001", "un restaurant", "client", "vocab"),
    ScriptLine("v002", "un serveur", "client", "vocab"),
    ScriptLine("v003", "une serveuse", "client", "vocab"),
    ScriptLine("v004", "la carte", "client", "vocab"),
    ScriptLine("v005", "le menu", "client", "vocab"),
    ScriptLine("v006", "l’addition", "client", "vocab"),
    ScriptLine("v007", "une réservation", "client", "vocab"),
    ScriptLine("v008", "une entrée", "client", "vocab"),
    ScriptLine("v009", "un plat principal", "client", "vocab"),
    ScriptLine("v010", "un dessert", "client", "vocab")
  ]

  /** Lines 129-138. */
  const Vocab2: seq<ScriptLine> := [
    ScriptLine("v011", "une soupe", "client", "vocab"),
    ScriptLine("v012", "une salade", "client", "vocab"),
    ScriptLine("v013", "du poulet", "client", "vocab"),
    ScriptLine("v014", "du bœuf", "client", "vocab"),
    ScriptLine("v015", "du poisson", "client", "vocab"),
    ScriptLine("v016", "du riz", "client", "vocab"),
    ScriptLine("v017", "des pâtes", "client", "vocab"),
    ScriptLine("v018", "des légumes", "client", "vocab"),
    ScriptLine("v019", "des frites", "client", "vocab"),
    ScriptLine("v020", "du fromage", "client", "vocab")
  ]

  /** Lines 139-147. */
  const Vocab3: seq<ScriptLine> := [
    ScriptLine("v021", "du pain", "client", "vocab"),
    ScriptLine("v022", "de l’eau plate", "client", "vocab"),
    ScriptLine("v023", "de l’eau gazeuse", "client", "vocab"),
    ScriptLine("v024", "du vin rouge", "client", "vocab"),
    ScriptLine("v025", "du vin blanc", "client", "vocab"),
    ScriptLine("v026", "une bière", "client", "vocab"),
    ScriptLine("v027", "un café", "client", "vocab"),
    ScriptLine("v028", "un thé", "client", "vocab"),
    ScriptLine("v029", "un jus d’orange", "client", "vocab")
  ]
  /** `DIALOGUE_LINES`. */
  const DialogueLines: seq<ScriptLine> := Sec1 + Sec2 + Sec3 + Sec4 + Sec5 + Sec6 + Sec7 + Sec8 + Sec9

  /** `VOCAB_LINES`. */
  const VocabLines: seq<ScriptLine> := Vocab1 + Vocab2 + Vocab3

  /** `ALL_LINES`: the dialogue, then the vocabulary. */
  const AllLines: seq<ScriptLine> := DialogueLines + VocabLines

  /** Every id in the table is a letter and three digits; this number orders
      such ids by letter, then by their digits. Two ids with different
      numbers are different strings. */
  function IdNumber(id: string): int {
    if |id| == 4 then
      (id[0] as int) * 1000 + ((id[1] as int) - 48) * 100 + ((id[2] as int) - 48) * 10 + ((id[3] as int) - 48)
    else -1
  }

  /** Each line's id number is below the next line's. */
  predicate Ascending(lines: seq<ScriptLine>) {
    forall i :: 0 <= i < |lines| - 1 ==> IdNumber(lines[i].id) < IdNumber(lines[i + 1].id)
  }

  /** Ascending step by step means ascending over every pair. */
  lemma {:induction false} AscendingPairs(lines: seq<ScriptLine>)
    requires Ascending(lines)
    ensures forall i, j :: 0 <= i < j < |lines| ==> IdNumber(lines[i].id) < IdNumber(lines[j].id)
  {
    if |lines| > 1 {
      var rest := lines[1..];
      assert Ascending(rest) by {
        forall i | 0 <= i < |rest| - 1 ensures IdNumber(rest[i].id) < IdNumber(rest[i + 1].id) {
          assert rest[i] == lines[i + 1] && rest[i + 1] == lines[i + 2];
        }
      }
      AscendingPairs(rest);
      forall i, j | 0 <= i < j < |lines| ensures IdNumber(lines[i].id) < IdNumber(lines[j].id) {
        assert lines[j] == rest[j - 1];
        if i > 0 {
          assert lines[i] == rest[i - 1];
        } else if j > 1 {
          assert lines[1] == rest[0];
        }
      }
    }
  }

  /** Two ascending stretches joined where the first ends below the second. */
  lemma AscendingAppend(a: seq<ScriptLine>, b: seq<ScriptLine>)
    requires Ascending(a) && Ascending(b) && a != [] && b != []
    requires IdNumber(a[|a| - 1].id) < IdNumber(b[0].id)
    ensures Ascending(a + b)
  {
    var c := a + b;
    forall i | 0 <= i < |c| - 1 ensures IdNumber(c[i].id) < IdNumber(c[i + 1].id) {
      if i >= |a| {
        assert c[i] == b[i - |a|] && c[i + 1] == b[i - |a| + 1];
      }
    }
  }

  lemma Sec1Ascending()
    ensures Ascending(Sec1)
  {
  }

  lemma Sec2Ascending()
    ensures Ascending(Sec2)
  {
  }

  lemma Sec3Ascending()
    ensures Ascending(Sec3)
  {
  }

  lemma Sec4Ascending()
    ensures Ascending(Sec4)
  {
  }

  lemma Sec5Ascending()
    ensures Ascending(Sec5)
  {
  }

  lemma Sec6Ascending()
    ensures Ascending(Sec6)
  {
  }

  lemma Sec7Ascending()
    ensures Ascending(Sec7)
  {
  }

  lemma Sec8Ascending()
    ensures Ascending(Sec8)
  {
  }

  lemma Sec9Ascending()
    ensures Ascending(Sec9)
  {
  }

  lemma Vocab1Ascending()
    ensures Ascending(Vocab1)
  {
  }

  lemma Vocab2Ascending()
    ensures Ascending(Vocab2)
  {
  }

  lemma Vocab3Ascending()
    ensures Ascending(Vocab3)
  {
  }

  /** Scenes sec1 to sec5 ascend from "d001" to "d044". */
  lemma {:induction false} FirstScenesAscending()
    ensures Ascending(Sec1 + Sec2 + Sec3 + Sec4 + Sec5)
  {
    Sec1Ascending();
    Sec2Ascending();
    Sec3Ascending();
    Sec4Ascending();
    Sec5Ascending();
    AscendingAppend(Sec1, Sec2);
    AscendingAppend(Sec1 + Sec2, Sec3);
    AscendingAppend(Sec1 + Sec2 + Sec3, Sec4);
    AscendingAppend(Sec1 + Sec2 + Sec3 + Sec4, Sec5);
  }

  /** The dialogue's id numbers ascend from "d001" to "d071". */
  lemma {:induction false} DialogueAscending()
    ensures Ascending(DialogueLines)
  {
    FirstScenesAscending();
    Sec6Ascending();
    Sec7Ascending();
    Sec8Ascending();
    Sec9Ascending();
    var p := Sec1 + Sec2 + Sec3 + Sec4 + Sec5;
    AscendingAppend(p, Sec6);
    AscendingAppend(p + Sec6, Sec7);
    AscendingAppend(p + Sec6 + Sec7, Sec8);
    AscendingAppend(p + Sec6 + Sec7 + Sec8, Sec9);
  }

  /** The vocabulary's id numbers ascend from "v001" to "v029". */
  lemma {:induction false} VocabAscending()
    ensures Ascending(VocabLines)
  {
    Vocab1Ascending();
    Vocab2Ascending();
    Vocab3Ascending();
    var p := Vocab1;
    AscendingAppend(p, Vocab2);
    p := p + Vocab2;
    AscendingAppend(p, Vocab3);
    p := p + Vocab3;
    assert p == VocabLines;
  }

  /** The whole table ascends: the dialogue ends below where the vocabulary starts. */
  lemma AllLinesAscending()
    ensures Ascending(AllLines)
  {
    DialogueAscending();
    VocabAscending();
    AscendingAppend(DialogueLines, VocabLines);
  }

  /** No two of the lines share an id. */
  predicate UniqueIds(lines: seq<ScriptLine>) {
    forall i, j :: 0 <= i < |lines| && 0 <= j < |lines| && i != j ==> lines[i].id != lines[j].id
  }

  /** No two lines of `ALL_LINES` share an id. */
  lemma IdsDistinct()
    ensures UniqueIds(AllLines)
  {
    AllLinesAscending();
    AscendingPairs(AllLines);
  }

  /** Every id has four characters (a letter and three digits) and every
      section id is non-empty. */
  predicate Shaped(lines: seq<ScriptLine>) {
    forall i :: 0 <= i < |lines| ==> |lines[i].id| == 4 && lines[i].section != ""
  }

  lemma ShapedAppend(a: seq<ScriptLine>, b: seq<ScriptLine>)
    requires Shaped(a) && Shaped(b)
    ensures Shaped(a + b)
  {
    var c := a + b;
    forall i | |a| <= i < |c| ensures |c[i].id| == 4 && c[i].section != "" {
      assert c[i] == b[i - |a|];
    }
  }

  /** Every line of `ALL_LINES` has a four-character id and a section. */
  lemma {:induction false} AllLinesShaped()
    ensures Shaped(AllLines)
  {
    assert Shaped(Sec1) && Shaped(Sec2) && Shaped(Sec3) && Shaped(Sec4) && Shaped(Sec5);
    assert Shaped(Sec6) && Shaped(Sec7) && Shaped(Sec8) && Shaped(Sec9);
    assert Shaped(Vocab1) && Shaped(Vocab2) && Shaped(Vocab3);
    ShapedAppend(Sec1, Sec2);
    ShapedAppend(Sec1 + Sec2, Sec3);
    ShapedAppend(Sec1 + Sec2 + Sec3, Sec4);
    ShapedAppend(Sec1 + Sec2 + Sec3 + Sec4, Sec5);
    ShapedAppend(Sec1 + Sec2 + Sec3 + Sec4 + Sec5, Sec6);
    ShapedAppend(Sec1 + Sec2 + Sec3 + Sec4 + Sec5 + Sec6, Sec7);
    ShapedAppend(Sec1 + Sec2 + Sec3 + Sec4 + Sec5 + Sec6 + Sec7, Sec8);
    ShapedAppend(Sec1 + Sec2 + Sec3 + Sec4 + Sec5 + Sec6 + Sec7 + Sec8, Sec9);
    ShapedAppend(Vocab1, Vocab2);
    ShapedAppend(Vocab1 + Vocab2, Vocab3);
    ShapedAppend(DialogueLines, VocabLines);
  }
}
