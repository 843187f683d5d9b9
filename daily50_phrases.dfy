/** _Archive_files/daily_50.py, lines 24-75: the `phrases` table of the
    daily-phrases lesson. */
module DailyPhrases {

  /** One row of `phrases`: its ordinal, the French text and the Chinese
      translation. */
  datatype Phrase = Phrase(num: nat, fr: string, zh: string)

  /** Lines 25-34. */
  const Phrases1: seq<Phrase> := [
      Phrase(1, "Bonjour !", "你好！（白天打招呼）"),
      Phrase(2, "Salut !", "嗨！ / 你好！（比较随意）"),
      Phrase(3, "Ça va ?", "最近怎么样？ / 还好吗？"),
      Phrase(4, "Ça va bien, merci. Et toi ?", "我很好，谢谢，你呢？"),
      Phrase(5, "Comment tu t’appelles ?", "你叫什么名字？"),
      Phrase(6, "Je m’appelle …", "我叫……"),
      Phrase(7, "Enchanté.", "幸会。（男生说）"),
      Phrase(8, "Tu viens d’où ?", "你来自哪里？"),
      Phrase(9, "Je viens de Chine.", "我来自中国。"),
      Phrase(10, "Tu habites où maintenant ?", "你现在住在哪里？")
    ]

  /** Lines 35-44. */
  const Phrases2: seq<Phrase> := [
      Phrase(11, "J’habite à Vancouver.", "我住在温哥华。"),
      Phrase(12, "Qu’est-ce que tu fais dans la vie ?", "你是做什么工作的？ / 你平时做什么？"),
      Phrase(13, "Je suis étudiant.", "我是学生。（男）"),
      Phrase(14, "Je suis étudiante.", "我是学生。（女）"),
      Phrase(15, "Je travaille dans l’informatique.", "我在 IT 行业工作。"),
      Phrase(16, "Tu parles quelles langues ?", "你会说哪些语言？"),
      Phrase(17, "Je parle chinois, anglais et un peu français.", "我会说中文、英文和一点法语。"),
      Phrase(18, "Tu peux répéter, s’il te plaît ?", "你可以再说一遍吗？（朋友间）"),
      Phrase(19, "Tu peux parler plus lentement, s’il te plaît ?", "你可以说慢一点吗？（朋友间）"),
      Phrase(20, "Je ne comprends pas.", "我不明白。 / 我听不懂。")
    ]

  /** Lines 45-54. */
  const Phrases3: seq<Phrase> := [
      Phrase(21, "Tu peux l’écrire, s’il te plaît ?", "你可以写下来吗？"),
      Phrase(22, "Qu’est-ce que ça veut dire ?", "这是什么意思？"),
      Phrase(23, "Tu es libre ce week-end ?", "你这个周末有空吗？"),
      Phrase(24, "On se voit quand ?", "我们什么时候见面？"),
      Phrase(25, "On se voit demain ?", "我们明天见面吗？"),
      Phrase(26, "À quelle heure ?", "几点？ / 什么时间？"),
      Phrase(27, "Où on se retrouve ?", "我们在哪里见面？ / 在哪儿碰头？"),
      Phrase(28, "Ça te va ?", "这样可以吗？ / 合适吗？"),
      Phrase(29, "Pas de problème.", "没问题。"),
      Phrase(30, "Merci beaucoup.", "非常感谢。")
    ]

  /** Lines 55-64. */
  const Phrases4: seq<Phrase> := [
      Phrase(31, "De rien.", "不客气。"),
      Phrase(32, "Excuse-moi.", "不好意思。（朋友间）"),
      Phrase(33, "Pardon, je suis en retard.", "不好意思，我迟到了。"),
      Phrase(34, "Ce n’est pas grave.", "没关系。 / 不要紧。"),
      Phrase(35, "J’aime beaucoup cette ville.", "我很喜欢这座城市。"),
      Phrase(36, "Il fait beau aujourd’hui.", "今天天气很好。"),
      Phrase(37, "J’ai faim.", "我饿了。"),
      Phrase(38, "J’ai soif.", "我渴了。"),
      Phrase(39, "Je suis fatigué.", "我累了。（男）"),
      Phrase(40, "Je suis fatiguée.", "我累了。（女）")
    ]

  /** Lines 65-74. */
  const Phrases5: seq<Phrase> := [
      Phrase(41, "J’ai besoin de dormir.", "我需要睡觉了。"),
      Phrase(42, "On y va ?", "我们走吗？ / 出发吗？"),
      Phrase(43, "Attends une minute, s’il te plaît.", "等一下，拜托。（等我一下）"),
      Phrase(44, "Tu peux m’aider ?", "你能帮我一下吗？"),
      Phrase(45, "Comment on dit ça en français ?", "这个用法语怎么说？"),
      Phrase(46, "Je dois y aller.", "我得走了。"),
      Phrase(47, "À tout à l’heure !", "一会儿见！"),
      Phrase(48, "À demain !", "明天见！"),
      Phrase(49, "Bonne journée !", "祝你今天愉快！"),
      Phrase(50, "Bonne soirée !", "祝你晚上愉快！")
    ]

  /** The `phrases` table. */
  const Phrases: seq<Phrase> := Phrases1 + Phrases2 + Phrases3 + Phrases4 + Phrases5

  /** The ordinals run `start`, `start + 1`, ... with no gap. */
  predicate Numbered(ps: seq<Phrase>, start: nat) {
    forall i :: 0 <= i < |ps| ==> ps[i].num == start + i
  }

  lemma NumberedAppend(a: seq<Phrase>, b: seq<Phrase>, start: nat)
    requires Numbered(a, start) && Numbered(b, start + |a|)
    ensures Numbered(a + b, start)
  {
    forall i | 0 <= i < |a + b| ensures (a + b)[i].num == start + i {
      if i >= |a| {
        assert (a + b)[i] == b[i - |a|];
      }
    }
  }

  /** The table holds fifty phrases numbered 1 to 50 in order. */
  lemma PhrasesNumbered()
    ensures |Phrases| == 50
    ensures Numbered(Phrases, 1)
  {
    assert Numbered(Phrases1, 1);
    assert Numbered(Phrases2, 11);
    assert Numbered(Phrases3, 21);
    assert Numbered(Phrases4, 31);
    assert Numbered(Phrases5, 41);
    NumberedAppend(Phrases1, Phrases2, 1);
    NumberedAppend(Phrases1 + Phrases2, Phrases3, 1);
    NumberedAppend(Phrases1 + Phrases2 + Phrases3, Phrases4, 1);
    NumberedAppend(Phrases1 + Phrases2 + Phrases3 + Phrases4, Phrases5, 1);
  }

  /** Numbered phrases have pairwise different ordinals. */
  lemma NumberedDistinct(ps: seq<Phrase>, start: nat)
    requires Numbered(ps, start)
    ensures forall i, j :: 0 <= i < j < |ps| ==> ps[i].num < ps[j].num
  {
  }

}
