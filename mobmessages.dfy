/** mobmessages.py: the death-message templates of the game's mobs mod, the vocabulary they
    are filled from, the rewriting of each template into a regular expression, and the
    per-player count of deaths by mob. Regular-expression matching itself is not modelled:
    it arrives as a parameter (parseDeadMobs) or as the already-captured groups
    (parseMobMessages). */
module MobMessages {
  import opened Outcomes
  import opened Strings
  import Timestamps
  import Helpers

  /** Text without `<`, the only character that starts a placeholder token. */
  type Plain = s: string | '<' !in s witness ""

  // The vocabulary lists, in source order (each split in blocks of at most seven words).
  const KillAdjBlock1: seq<Plain> := ["killed", "slain", "slaughtered", "mauled", "murdered", "pwned", "owned"]
  const KillAdjBlock2: seq<Plain> := ["dispatched", "neutralized", "wasted", "polished off", "rubbed out", "snuffed out", "assassinated"]
  const KillAdjBlock3: seq<Plain> := ["annulled", "destroyed", "finished off", "terminated", "wiped out", "scrubbed", "abolished"]
  const KillAdjBlock4: seq<Plain> := ["obliterated", "voided", "ended", "annihilated", "undone", "nullified", "exterminated"]
  const KillAdj: seq<Plain> := KillAdjBlock1 + KillAdjBlock2 + KillAdjBlock3 + KillAdjBlock4

  const KillAdj2Block1: seq<Plain> := ["killed", "slew", "slaughtered", "mauled", "murdered", "pwned", "owned"]
  const KillAdj2Block2: seq<Plain> := ["dispatched", "neutralized", "wasted", "polished off", "rubbed out", "snuffed out", "assassinated"]
  const KillAdj2Block3: seq<Plain> := ["annulled", "destroyed", "finished off", "terminated", "wiped out", "scrubbed", "abolished"]
  const KillAdj2Block4: seq<Plain> := ["obliterated", "voided", "ended", "annihilated", "undid", "nullified", "exterminated"]
  const KillAdj2: seq<Plain> := KillAdj2Block1 + KillAdj2Block2 + KillAdj2Block3 + KillAdj2Block4

  const KillAdj3Block1: seq<Plain> := ["kill", "slay", "slaughter", "maul", "murder", "pwn", "own"]
  const KillAdj3Block2: seq<Plain> := ["dispatch", "neutralize", "waste", "polish off", "rub out", "snuff out", "assassinate"]
  const KillAdj3Block3: seq<Plain> := ["annul", "destroy", "finish off", "terminate", "wipe out", "scrub", "abolish"]
  const KillAdj3Block4: seq<Plain> := ["obliterate", "void", "end", "annihilate", "undo", "nullify", "exterminate"]
  const KillAdj3: seq<Plain> := KillAdj3Block1 + KillAdj3Block2 + KillAdj3Block3 + KillAdj3Block4

  const KillAdvBlock1: seq<Plain> := ["brutally", "swiftly", "savagely", "viciously", "uncivilly", "barbarously", "ruthlessly"]
  const KillAdvBlock2: seq<Plain> := ["ferociously", "rudely", "cruelly"]
  /** Adverbs; the template group makes the adverb optional. */
  const KillAdv: seq<Plain> := KillAdvBlock1 + KillAdvBlock2

  const KillAngBlock1: seq<Plain> := ["angry", "PO'ed", "furious", "disgusted", "infuriated", "annoyed", "irritated"]
  const KillAngBlock2: seq<Plain> := ["bitter", "offended", "outraged", "irate", "enraged", "indignant", "irritable"]
  const KillAngBlock3: seq<Plain> := ["cross", "riled", "vexed", "wrathful", "fierce", "displeased", "irascible"]
  const KillAngBlock4: seq<Plain> := ["ireful", "sulky", "ill-tempered", "vehement", "raging", "incensed", "frenzied"]
  const KillAngBlock5: seq<Plain> := ["enthusiastic", "fuming", "cranky", "peevish", "belligerent"]
  /** Anger words; the template groups make them optional. */
  const KillAng: seq<Plain> := KillAngBlock1 + KillAngBlock2 + KillAngBlock3 + KillAngBlock4 + KillAngBlock5

  const PainWordsBlock1: seq<Plain> := ["harm", "pain", "grief", "trouble", "evil", "ill will"]
  const PainWords: seq<Plain> := PainWordsBlock1

  /** The six lists parseDeadMobs builds its groups from. */
  datatype Vocabulary = Vocabulary(
    adj: seq<Plain>, adj2: seq<Plain>, adj3: seq<Plain>, adv: seq<Plain>, ang: seq<Plain>, pain: seq<Plain>)

  const SourceVocabulary := Vocabulary(KillAdj, KillAdj2, KillAdj3, KillAdv, KillAng, PainWords)

  /** `"(" + "|".join(ws) + ")"`: an alternation of the words. */
  function Group(ws: seq<Plain>): (r: Plain)
  {
    assert '<' !in "|";
    "(" + Join("|", ws) + ")"
  }

  /** Every word of a vocabulary list can be found in its group. */
  lemma GroupContainsEach(ws: seq<Plain>, w: Plain)
    requires w in ws
    ensures Occurs(w, Group(ws))
  {
    JoinContainsEach("|", ws, w);
    OccursAfter(w, "(", Join("|", ws));
    OccursBefore(w, "(" + Join("|", ws), ")");
    assert Group(ws) == "(" + Join("|", ws) + ")";
  }

  /** The placeholders, declared in the order parseDeadMobs replaces them. */
  datatype Placeholder =
    KHimself | KHis | VHimself | VHis | VHim | VHe | N | Brutally | Angry | AnAngryK |
    Slain | Slew | Slay | Pain | W | V | K

  const Rules: seq<Placeholder> :=
    [KHimself, KHis, VHimself, VHis, VHim, VHe, N, Brutally, Angry, AnAngryK,
     Slain, Slew, Slay, Pain, W, V, K]

  function Name(p: Placeholder): (r: Plain)
    ensures r != [] && r[0] != '('
  {
    match p
    case KHimself => "k_himself"
    case KHis => "k_his"
    case VHimself => "v_himself"
    case VHis => "v_his"
    case VHim => "v_him"
    case VHe => "v_he"
    case N => "n"
    case Brutally => "brutally"
    case Angry => "angry"
    case AnAngryK => "an_angry_k"
    case Slain => "slain"
    case Slew => "slew"
    case Slay => "slay"
    case Pain => "pain"
    case W => "w"
    case V => "v"
    case K => "k"
  }

  /** The token as it appears in a template, such as `<an_angry_k>`: a `<` that opens
      no group, and no other `<`. */
  function Token(p: Placeholder): (r: string)
    ensures |r| >= 3 && r[0] == '<' && r[1] != '('
    ensures forall i | 0 < i < |r| :: r[i] != '<'
  {
    var r := "<" + Name(p) + ">";
    assert forall i | 0 < i < |r| - 1 :: r[i] == Name(p)[i - 1];
    r
  }

  /** The text parseDeadMobs puts in place of a token. */
  function Substitution(p: Placeholder, v: Vocabulary): string {
    match p
    case KHimself => "(himself|herself|itself)"
    case KHis => "(his|her|its)"
    case VHimself => "(himself|herself|itself)"
    case VHis => "(his|her|its)"
    case VHim => "(him)"
    case VHe => "(he)"
    case N => "[Aa]n?"
    case Brutally => "(" + Group(v.adv) + " )?"
    case Angry => "(" + Group(v.ang) + " )?"
    case AnAngryK => "([Aa]n? " + Group(v.ang) + " )?" + "<(.*)>"
    case Slain => Group(v.adj)
    case Slew => Group(v.adj2)
    case Slay => Group(v.adj3)
    case Pain => Group(v.pain)
    case W => "(.*)"
    case V => "(.*)"
    case K => "(.*)"
  }

  /** A template is literal text and placeholder tokens. */
  datatype Part = Text(text: Plain) | Slot(slot: Placeholder)

  function Render(parts: seq<Part>): string {
    if parts == [] then ""
    else (match parts[0] case Text(s) => s case Slot(p) => Token(p)) + Render(parts[1..])
  }

  // The templates, one constant each.
  const Template1: seq<Part> :=
    [Slot(N), Text(" "), Slot(V), Text(" collapsed from "), Slot(AnAngryK), Text("'s "),
     Slot(Angry), Text("attack.")]
  const Template2: seq<Part> :=
    [Slot(AnAngryK), Text("'s "), Slot(W), Text(" apparently wasn't such an"),
     Text(" unusual weapon"), Text(" after all, as "), Slot(N), Text(" "), Slot(V), Text(" found out.")]
  const Template3: seq<Part> :=
    [Slot(AnAngryK), Text(" "), Slot(Brutally), Slot(Slew), Text(" "), Slot(N), Text(" "),
     Slot(V), Text(" with great prejudice.")]
  const Template4: seq<Part> :=
    [Slot(N), Text(" "), Slot(V), Text(" died from "), Slot(AnAngryK), Text("'s horrid slaying.")]
  const Template5: seq<Part> :=
    [Slot(N), Text(" "), Slot(V), Text(" fell prey to "), Slot(AnAngryK), Text("'s deadly "),
     Slot(W), Text(".")]
  const Template6: seq<Part> :=
    [Slot(AnAngryK), Text(" went out of "), Slot(KHis), Text(" way to "), Slot(Slay), Text(" "),
     Slot(N), Text(" "), Slot(V), Text(" with "), Slot(KHis), Text(" "), Slot(W), Text(".")]
  const Template7: seq<Part> :=
    [Slot(N), Text(" "), Slot(V), Text(" danced "), Slot(VHimself), Text(" to death under "),
     Slot(AnAngryK), Text("'s craftily wielded "), Slot(W), Text(".")]
  const Template8: seq<Part> :=
    [Slot(AnAngryK), Text(" used "), Slot(KHis), Text(" "), Slot(W), Text(" to "), Slot(Slay),
     Text(" "), Slot(N), Text(" "), Slot(V), Text(" with prejudice.")]
  const Template9: seq<Part> :=
    [Slot(AnAngryK), Text(" made a splortching sound"), Text(" with "), Slot(N), Text(" "),
     Slot(V), Text("'s head.")]
  const Template10: seq<Part> :=
    [Slot(N), Text(" "), Slot(V), Text(" was "), Slot(Slain), Text(" by "), Slot(AnAngryK),
     Text("'s skillfully handled "), Slot(W), Text(".")]
  const Template11: seq<Part> :=
    [Slot(N), Text(" "), Slot(V), Text(" became prey for "), Slot(AnAngryK), Text(".")]
  const Template12: seq<Part> :=
    [Slot(N), Text(" "), Slot(V), Text(" didn't get out of "), Slot(AnAngryK),
     Text("'s way in time.")]
  const Template13: seq<Part> :=
    [Slot(N), Text(" "), Slot(V), Text(" SAW "), Slot(AnAngryK), Text(" coming with "),
     Slot(KHis), Text(" "), Slot(W), Text(". Didn't get away in time.")]
  const Template14: seq<Part> :=
    [Slot(N), Text(" "), Slot(V), Text(" made no real attempt to get"), Text(" out of "),
     Slot(AnAngryK), Text("'s way.")]
  const Template15: seq<Part> :=
    [Slot(AnAngryK), Text(" barreled through "), Slot(N), Text(" "), Slot(V), Text(" as if "),
     Slot(VHe), Text(" wasn't there.")]
  const Template16: seq<Part> :=
    [Slot(AnAngryK), Text(" sent "), Slot(N), Text(" "), Slot(V),
     Text(" to that place where kindling"), Text(" wood isn't needed.")]
  const Template17: seq<Part> :=
    [Slot(N), Text(" "), Slot(V), Text(" didn't suspect that "), Slot(AnAngryK), Text(" meant "),
     Slot(VHim), Text(" any "), Slot(Pain), Text(".")]
  const Template18: seq<Part> :=
    [Slot(N), Text(" "), Slot(V), Text(" fought "), Slot(AnAngryK),
     Text(" to the death and lost"), Text(" painfully.")]
  const Template19: seq<Part> :=
    [Slot(N), Text(" "), Slot(V), Text(" knew "), Slot(AnAngryK), Text(" was wielding "),
     Slot(KHis), Text(" "), Slot(W), Text(" but didn't guess what "), Slot(K),
     Text(" meant to do with it.")]
  const Template20: seq<Part> :=
    [Slot(AnAngryK), Text(" "), Slot(Brutally), Text("clonked "), Slot(N), Text(" "), Slot(V),
     Text(" over the head using "), Slot(KHis), Text(" "), Slot(W), Text(" with silent skill.")]
  const Template21: seq<Part> :=
    [Slot(AnAngryK), Text(" made sure "), Slot(N), Text(" "), Slot(V),
     Text(" didn't see that coming!")]
  const Template22: seq<Part> :=
    [Slot(AnAngryK), Text(" has decided "), Slot(KHis), Text(" favorite weapon is "), Slot(KHis),
     Text(" "), Slot(W), Text(".")]
  const Template23: seq<Part> :=
    [Slot(N), Text(" "), Slot(V), Text(" did the mad hatter dance"), Text(" just before being "),
     Slot(Slain), Text(" with "), Slot(AnAngryK), Text("'s "), Slot(W), Text(".")]
  const Template24: seq<Part> :=
    [Slot(N), Text(" "), Slot(V), Text(" played the victim to "), Slot(AnAngryK),
     Text("'s bully behavior!")]
  const Template25: seq<Part> :=
    [Slot(AnAngryK), Text(" used "), Slot(N), Text(" "), Slot(V),
     Text(" for weapons practice with "), Slot(KHis), Text(" "), Slot(W), Text(".")]
  const Template26: seq<Part> :=
    [Slot(N), Text(" "), Slot(V), Text(" failed to avoid "), Slot(AnAngryK),
     Text("'s oncoming weapon.")]
  const Template27: seq<Part> :=
    [Slot(AnAngryK), Text(" successfully got "), Slot(N), Text(" "), Slot(V),
     Text(" to complain of a headache.")]
  const Template28: seq<Part> :=
    [Slot(N), Text(" "), Slot(V), Text(" got "), Slot(VHimself),
     Text(" some serious hurt from "), Slot(AnAngryK), Text("'s "), Slot(W), Text(".")]
  const Template29: seq<Part> :=
    [Text("Trying to talk peace to "), Slot(AnAngryK), Text(" didn't win any for "), Slot(N),
     Text(" "), Slot(V), Text(".")]
  const Template30: seq<Part> :=
    [Slot(N), Text(" "), Slot(V), Text(" was "), Slot(Brutally), Slot(Slain), Text(" by "),
     Slot(AnAngryK), Text("'s "), Slot(W), Text(".")]
  const Template31: seq<Part> :=
    [Slot(N), Text(" "), Slot(V), Text(" jumped the mad-hatter dance"), Text(" under "),
     Slot(AnAngryK), Text("'s "), Slot(W), Text(".")]
  const Template32: seq<Part> :=
    [Slot(N), Text(" "), Slot(V), Text(" got "), Slot(VHimself), Text(" a fatal mauling by "),
     Slot(AnAngryK), Text("'s "), Slot(W), Text(".")]
  const Template33: seq<Part> :=
    [Slot(AnAngryK), Text(" "), Slot(Brutally), Slot(Slew), Text(" "), Slot(N), Text(" "),
     Slot(V), Text(" with "), Slot(KHis), Text(" "), Slot(W), Text(".")]
  const Template34: seq<Part> :=
    [Slot(AnAngryK), Text(" split "), Slot(N), Text(" "), Slot(V), Text("'s wig.")]
  const Template35: seq<Part> :=
    [Slot(AnAngryK), Text(" took revenge on "), Slot(N), Text(" "), Slot(V), Text(".")]
  const Template36: seq<Part> :=
    [Slot(AnAngryK), Text(" "), Slot(Brutally), Slot(Slew), Text(" "), Slot(N), Text(" "),
     Slot(V), Text(".")]
  const Template37: seq<Part> :=
    [Slot(N), Text(" "), Slot(V), Text(" played dead. Permanently.")]
  const Template38: seq<Part> :=
    [Slot(N), Text(" "), Slot(V), Text(" never saw what hit "), Slot(VHim), Text(".")]
  const Template39: seq<Part> :=
    [Slot(AnAngryK), Text(" took "), Slot(N), Text(" "), Slot(V), Text(" by surprise.")]
  const Template40: seq<Part> :=
    [Slot(N), Text(" "), Slot(V), Text(" was "), Slot(Brutally), Slot(Slain), Text(".")]
  const Template41: seq<Part> :=
    [Slot(AnAngryK), Text(" didn't take any prisoners"), Text(" from "), Slot(N), Text(" "),
     Slot(V), Text(".")]
  const Template42: seq<Part> :=
    [Slot(AnAngryK), Text(" "), Slot(Brutally), Text("pinned "), Slot(N), Text(" "), Slot(V),
     Text(" to the wall with "), Slot(KHis), Text(" "), Slot(W), Text(".")]
  const Template43: seq<Part> :=
    [Slot(N), Text(" "), Slot(V), Text(" failed "), Slot(VHis), Text(" weapon checks.")]
  const Template44: seq<Part> :=
    [Slot(K), Text(" eliminated "), Slot(N), Text(" "), Slot(V), Text(".")]
  /** `murder_messages` before rewriting, one part list per template in source order. */
  const Templates: seq<seq<Part>> := [
    Template1, Template2, Template3, Template4, Template5, Template6, Template7, Template8,
    Template9, Template10, Template11, Template12, Template13, Template14, Template15, Template16,
    Template17, Template18, Template19, Template20, Template21, Template22, Template23, Template24,
    Template25, Template26, Template27, Template28, Template29, Template30, Template31, Template32,
    Template33, Template34, Template35, Template36, Template37, Template38, Template39, Template40,
    Template41, Template42, Template43, Template44]

  const MurderMessages: seq<string> := seq(|Templates|, i requires 0 <= i < |Templates| => Render(Templates[i]))

  // ---------------------------------------------------------------------------
  // Rewriting templates into patterns (parseDeadMobs, mobmessages.py:249-274).

  /** One template rewritten: each placeholder of `ps`, in order, replaced everywhere. */
  function Rewrite(m: string, ps: seq<Placeholder>, v: Vocabulary): string
    decreases |ps|
  {
    if ps == [] then m
    else Rewrite(Replace(m, Token(ps[0]), Substitution(ps[0], v)), ps[1..], v)
  }

  /** The seventeen `m = m.replace(...)` statements of parseDeadMobs. */
  function Compile(m: string, v: Vocabulary): string {
    Rewrite(m, Rules, v)
  }

  /** No placeholder token occurs in m. */
  predicate TokenFree(m: string) {
    forall p :: !Occurs(Token(p), m)
  }

  /** A token of one of `ps` begins t. */
  predicate StartsToken(t: string, ps: seq<Placeholder>) {
    exists j | 0 <= j < |ps| :: Token(ps[j]) <= t
  }

  /** The `<` at the head of t opens a `<(` group or a token of `ps`. */
  predicate Marked(t: string, ps: seq<Placeholder>) {
    (|t| > 1 && t[1] == '(') || StartsToken(t, ps)
  }

  /** Every `<` of s is marked: the invariant the replacements keep, with `ps` the
      placeholders still to be replaced. */
  predicate Safe(s: string, ps: seq<Placeholder>) {
    forall i | 0 <= i < |s| && s[i] == '<' :: Marked(s[i..], ps)
  }

  lemma MarkedExtend(t: string, u: string, ps: seq<Placeholder>)
    requires Marked(t, ps)
    ensures Marked(t + u, ps)
  {
    if !(|t| > 1 && t[1] == '(') {
      var j :| 0 <= j < |ps| && Token(ps[j]) <= t;
      assert Token(ps[j]) <= t + u;
    }
  }

  lemma SafeAppend(a: string, b: string, ps: seq<Placeholder>)
    requires Safe(a, ps) && Safe(b, ps)
    ensures Safe(a + b, ps)
  {
    forall i | 0 <= i < |a + b| && (a + b)[i] == '<'
      ensures Marked((a + b)[i..], ps)
    {
      if i < |a| {
        assert (a + b)[i..] == a[i..] + b;
        MarkedExtend(a[i..], b, ps);
      } else {
        assert (a + b)[i..] == b[i - |a|..];
      }
    }
  }

  lemma SafeCons(c: char, t: string, ps: seq<Placeholder>)
    requires c == '<' ==> Marked([c] + t, ps)
    requires Safe(t, ps)
    ensures Safe([c] + t, ps)
  {
    forall i | 0 <= i < |[c] + t| && ([c] + t)[i] == '<'
      ensures Marked(([c] + t)[i..], ps)
    {
      if i == 0 {
        assert ([c] + t)[i..] == [c] + t;
      } else {
        assert ([c] + t)[i..] == t[i - 1..];
      }
    }
  }

  lemma SafeSuffix(s: string, k: nat, ps: seq<Placeholder>)
    requires k <= |s| && Safe(s, ps)
    ensures Safe(s[k..], ps)
  {
    forall i | 0 <= i < |s[k..]| && s[k..][i] == '<'
      ensures Marked(s[k..][i..], ps)
    {
      assert s[k..][i..] == s[k + i..];
    }
  }

  lemma SafeWiden(s: string, ps: seq<Placeholder>)
    requires Safe(s, [])
    ensures Safe(s, ps)
  {
  }

  /** Substitution texts introduce no token: their only `<` opens `<(.*)>`. */
  lemma SubstitutionSafe(p: Placeholder, v: Vocabulary)
    ensures Safe(Substitution(p, v), [])
  {
    if p == AnAngryK {
      var head: Plain := "([Aa]n? " + Group(v.ang) + " )?";
      var tail := "<(.*)>";
      assert Safe(tail, []) by {
        assert tail[0..] == tail;
        assert forall i | 0 < i < |tail| :: tail[i] != '<';
      }
      SafeAppend(head, tail, []);
      assert Substitution(p, v) == head + tail;
    } else {
      var r: Plain := Substitution(p, v);
    }
  }

  /** A prefix with `<` only at its head survives rewriting the rest of the string with a
      pattern that starts with `<`. */
  lemma PrefixSurvives(s: string, pat: string, sub: string, t: string)
    requires |pat| > 0 && pat[0] == '<' && 0 < |t| && t <= s
    requires forall i | 0 < i < |t| :: t[i] != '<'
    ensures t <= [s[0]] + Replace(s[1..], pat, sub)
  {
    assert forall i | 0 <= i < |t| - 1 :: s[1..][i] == t[i + 1];
    ReplaceKeepsPrefix(s[1..], pat, sub, |t| - 1);
    assert t == [s[0]] + s[1..][..|t| - 1];
  }

  /** A `<` at the head of s that is not p's token keeps its mark when the rest of s is
      rewritten. */
  lemma MarkSurvives(s: string, p: Placeholder, sub: string, rest: seq<Placeholder>)
    requires |s| > 0 && s[0] == '<' && Marked(s, [p] + rest) && !(Token(p) <= s)
    ensures Marked([s[0]] + Replace(s[1..], Token(p), sub), rest)
  {
    var tok := Token(p);
    if |s| > 1 && s[1] == '(' {
      PrefixSurvives(s, tok, sub, s[..2]);
    } else {
      var j :| 0 <= j < |[p] + rest| && Token(([p] + rest)[j]) <= s;
      assert j != 0;
      var q := rest[j - 1];
      PrefixSurvives(s, tok, sub, Token(q));
    }
  }

  /** One `m.replace(token, text)` removes every `<` that token explained and leaves the
      other marks in place. */
  lemma {:induction false} ReplaceClears(s: string, p: Placeholder, sub: string, rest: seq<Placeholder>)
    requires Safe(s, [p] + rest) && Safe(sub, [])
    ensures Safe(Replace(s, Token(p), sub), rest)
    decreases |s|
  {
    var tok := Token(p);
    if s == [] {
    } else if tok <= s {
      SafeSuffix(s, |tok|, [p] + rest);
      ReplaceClears(s[|tok|..], p, sub, rest);
      SafeWiden(sub, rest);
      SafeAppend(sub, Replace(s[|tok|..], tok, sub), rest);
    } else {
      SafeSuffix(s, 1, [p] + rest);
      ReplaceClears(s[1..], p, sub, rest);
      if s[0] == '<' {
        assert s[0..] == s;
        MarkSurvives(s, p, sub, rest);
      }
      SafeCons(s[0], Replace(s[1..], tok, sub), rest);
    }
  }

  /** Applying the replacements of `ps` to a string whose marks they explain leaves only
      `<(` groups. */
  lemma {:induction false} RewriteClears(m: string, ps: seq<Placeholder>, v: Vocabulary)
    requires Safe(m, ps)
    ensures Safe(Rewrite(m, ps, v), [])
    decreases |ps|
  {
    if ps != [] {
      assert ps == [ps[0]] + ps[1..];
      SubstitutionSafe(ps[0], v);
      ReplaceClears(m, ps[0], Substitution(ps[0], v), ps[1..]);
      RewriteClears(Replace(m, Token(ps[0]), Substitution(ps[0], v)), ps[1..], v);
    }
  }

  /** A string whose every `<` opens a `<(` group contains no token. */
  lemma {:induction false} NoTokenIn(s: string, p: Placeholder)
    requires Safe(s, [])
    ensures !Occurs(Token(p), s)
    decreases |s|
  {
    if s != [] {
      if |s| > 1 && s[0] == '<' {
        assert s[0..] == s;
        assert s[1] == '(';
      }
      assert !(Token(p) <= s);
      SafeSuffix(s, 1, []);
      NoTokenIn(s[1..], p);
    }
  }

  /** Replacements leave a token-free string as it is. */
  lemma {:induction false} RewriteUnchanged(m: string, ps: seq<Placeholder>, v: Vocabulary)
    requires TokenFree(m)
    ensures Rewrite(m, ps, v) == m
    decreases |ps|
  {
    if ps != [] {
      assert !Occurs(Token(ps[0]), m);
      RewriteUnchanged(m, ps[1..], v);
    }
  }

  lemma AllRules(p: Placeholder)
    ensures p in Rules
  {
  }

  /** A rendered template is Safe for all placeholders: its text has no `<`, and each of its
      tokens is one of the rules. */
  lemma {:induction false} RenderSafe(parts: seq<Part>)
    ensures Safe(Render(parts), Rules)
  {
    if parts != [] {
      RenderSafe(parts[1..]);
      match parts[0]
      case Text(s) =>
        SafeAppend(s, Render(parts[1..]), Rules);
      case Slot(p) =>
        AllRules(p);
        var j :| 0 <= j < |Rules| && Rules[j] == p;
        assert Safe(Token(p), Rules) by {
          assert Token(p)[0..] == Token(p);
          assert Token(Rules[j]) <= Token(p)[0..];
        }
        SafeAppend(Token(p), Render(parts[1..]), Rules);
    }
  }

  /** A compiled template contains no placeholder token. */
  lemma CompileClears(m: string, v: Vocabulary)
    requires Safe(m, Rules)
    ensures TokenFree(Compile(m, v)) && Safe(Compile(m, v), [])
  {
    RewriteClears(m, Rules, v);
    forall p ensures !Occurs(Token(p), Compile(m, v)) {
      NoTokenIn(Compile(m, v), p);
    }
  }

  /** Compiling twice is compiling once. */
  lemma CompileIdempotent(m: string, v: Vocabulary)
    requires Safe(m, Rules)
    ensures Compile(Compile(m, v), v) == Compile(m, v)
  {
    CompileClears(m, v);
    RewriteUnchanged(Compile(m, v), Rules, v);
  }

  /** The pattern a template stands for: its text as is, each placeholder as its
      substitution text. */
  function Pattern(parts: seq<Part>, v: Vocabulary): string {
    if parts == [] then ""
    else (match parts[0] case Text(s) => s case Slot(p) => Substitution(p, v)) + Pattern(parts[1..], v)
  }

  /** A template part way through the rewriting: text already final, or a pending token. */
  datatype Piece = Fixed(s: string) | Pending(p: Placeholder)

  function Flatten(xs: seq<Piece>): string {
    if xs == [] then ""
    else (match xs[0] case Fixed(s) => s case Pending(p) => Token(p)) + Flatten(xs[1..])
  }

  predicate FixedSafe(xs: seq<Piece>) {
    forall i | 0 <= i < |xs| && xs[i].Fixed? :: Opens(xs[i].s)
  }

  function Pieces(parts: seq<Part>): (xs: seq<Piece>)
    ensures |xs| == |parts|
    ensures forall i | 0 <= i < |parts| ::
      xs[i] == (match parts[i] case Text(s) => Fixed(s) case Slot(p) => Pending(p))
  {
    seq(|parts|, i requires 0 <= i < |parts| =>
      match parts[i] case Text(s) => Fixed(s) case Slot(p) => Pending(p))
  }

  /** A piece once the placeholders of `ps` have been replaced. */
  function Fill(x: Piece, ps: seq<Placeholder>, v: Vocabulary): Piece {
    if x.Pending? && x.p in ps then Fixed(Substitution(x.p, v)) else x
  }

  function FillAll(xs: seq<Piece>, ps: seq<Placeholder>, v: Vocabulary): (r: seq<Piece>)
    ensures |r| == |xs| && forall i | 0 <= i < |xs| :: r[i] == Fill(xs[i], ps, v)
  {
    seq(|xs|, i requires 0 <= i < |xs| => Fill(xs[i], ps, v))
  }

  /** Every `<` of s opens a `<(` group. */
  predicate Opens(s: string) {
    forall i | 0 <= i < |s| && s[i] == '<' :: i + 1 < |s| && s[i + 1] == '('
  }

  lemma SafeOpens(s: string)
    requires Safe(s, [])
    ensures Opens(s)
  {
    forall i | 0 <= i < |s| && s[i] == '<' ensures i + 1 < |s| && s[i + 1] == '(' {
      assert Marked(s[i..], []);
    }
  }

  /** Replacing a token skips over text whose every `<` opens a `<(` group. */
  lemma {:induction false} ReplaceSkips(x: string, y: string, pat: string, sub: string)
    requires |pat| >= 2 && pat[0] == '<' && pat[1] != '('
    requires Opens(x)
    ensures Replace(x + y, pat, sub) == x + Replace(y, pat, sub)
    decreases |x|
  {
    if x == [] {
      assert x + y == y;
    } else {
      assert !(pat <= x + y) by {
        if x[0] == '<' {
          assert (x + y)[1] == x[1] == '(';
        }
      }
      var x' := x[1..];
      assert (x + y)[1..] == x' + y;
      assert Opens(x') by {
        assert forall i | 0 <= i < |x'| :: x'[i] == x[i + 1];
      }
      ReplaceSkips(x', y, pat, sub);
      assert x == [x[0]] + x';
    }
  }

  /** A token ends at its first `>` and holds the placeholder's name. */
  lemma TokenShape(p: Placeholder)
    ensures var t := Token(p);
      t[|t| - 1] == '>' && (forall i | 0 <= i < |t| - 1 :: t[i] != '>') && t[1..|t| - 1] == Name(p)
  {
    var n := Name(p);
    assert '>' !in n;
    var t := Token(p);
    assert forall i | 0 < i < |t| - 1 :: t[i] == n[i - 1];
  }

  /** Of two strings that each end at their first c, one is a prefix of the other
      followed by more text only when the two are equal. */
  lemma EndMarkerPrefix(a: string, b: string, y: string, c: char)
    requires |a| > 0 && a[|a| - 1] == c && forall i | 0 <= i < |a| - 1 :: a[i] != c
    requires |b| > 0 && b[|b| - 1] == c && forall i | 0 <= i < |b| - 1 :: b[i] != c
    ensures a <= b + y ==> a == b
  {
    if a <= b + y {
      var rest := (b + y)[|a|..];
      assert a + rest == b + y;
      IndexOfPrefix(a, rest, c);
      IndexOfPrefix(b, y, c);
      assert IndexOf(a, c) == |a| - 1 && IndexOf(b, c) == |b| - 1;
    }
  }

  /** The position of the first c in s. */
  function IndexOf(s: string, c: char): (k: nat)
    requires c in s
    ensures k < |s| && s[k] == c && forall i | 0 <= i < k :: s[i] != c
  {
    if s[0] == c then 0 else 1 + IndexOf(s[1..], c)
  }

  lemma IndexOfPrefix(a: string, z: string, c: char)
    requires c in a
    ensures IndexOf(a + z, c) == IndexOf(a, c)
  {
    var k := IndexOf(a, c);
    assert (a + z)[k] == c;
  }

  lemma NameInjective(p: Placeholder, q: Placeholder)
    ensures Name(p) == Name(q) ==> p == q
  {
  }

  /** Tokens are not prefixes of one another. */
  lemma TokenPrefix(p: Placeholder, q: Placeholder, y: string)
    ensures Token(p) <= Token(q) + y ==> p == q
  {
    TokenShape(p);
    TokenShape(q);
    EndMarkerPrefix(Token(p), Token(q), y, '>');
    NameInjective(p, q);
  }

  lemma ReplaceSameToken(p: Placeholder, y: string, sub: string)
    ensures Replace(Token(p) + y, Token(p), sub) == sub + Replace(y, Token(p), sub)
  {
    var tp := Token(p);
    assert tp <= tp + y;
    assert (tp + y)[|tp|..] == y;
  }

  /** Text that starts with `<` but is not an occurrence of the pattern, and has no other
      `<`, is kept as is. */
  lemma ReplaceSkipsHead(t: string, y: string, pat: string, sub: string)
    requires |pat| >= 2 && pat[0] == '<' && pat[1] != '('
    requires |t| > 0 && !(pat <= t + y) && forall i | 0 < i < |t| :: t[i] != '<'
    ensures Replace(t + y, pat, sub) == t + Replace(y, pat, sub)
  {
    var x := t[1..];
    assert Replace(t + y, pat, sub) == [t[0]] + Replace((t + y)[1..], pat, sub);
    assert (t + y)[1..] == x + y;
    assert Opens(x) by {
      forall i | 0 <= i < |x| ensures x[i] != '<' {
        assert x[i] == t[i + 1];
      }
    }
    ReplaceSkips(x, y, pat, sub);
    assert t == [t[0]] + x;
  }

  lemma ReplaceOtherToken(q: Placeholder, y: string, p: Placeholder, sub: string)
    requires p != q
    ensures Replace(Token(q) + y, Token(p), sub) == Token(q) + Replace(y, Token(p), sub)
  {
    TokenPrefix(p, q, y);
    ReplaceSkipsHead(Token(q), y, Token(p), sub);
  }

  /** One replacement, piece by piece: pending tokens of p become its substitution text. */
  lemma {:induction false} ReplacePieces(xs: seq<Piece>, p: Placeholder, v: Vocabulary)
    requires FixedSafe(xs)
    ensures Replace(Flatten(xs), Token(p), Substitution(p, v)) == Flatten(FillAll(xs, [p], v))
    decreases |xs|
  {
    if xs == [] {
    } else {
      assert FixedSafe(xs[1..]) by {
        assert forall i | 0 <= i < |xs| - 1 :: xs[1..][i] == xs[i + 1];
      }
      ReplacePieces(xs[1..], p, v);
      assert FillAll(xs, [p], v)[1..] == FillAll(xs[1..], [p], v);
      var rest := Flatten(xs[1..]);
      match xs[0]
      case Fixed(s) =>
        ReplaceSkips(s, rest, Token(p), Substitution(p, v));
      case Pending(q) =>
        if q == p {
          ReplaceSameToken(p, rest, Substitution(p, v));
        } else {
          ReplaceOtherToken(q, rest, p, Substitution(p, v));
        }
    }
  }

  /** Applying the rules of `ps` in order fills exactly the pending tokens of `ps`. */
  lemma {:induction false} RewritePieces(xs: seq<Piece>, ps: seq<Placeholder>, v: Vocabulary)
    requires FixedSafe(xs)
    ensures Rewrite(Flatten(xs), ps, v) == Flatten(FillAll(xs, ps, v))
    decreases |ps|
  {
    if ps == [] {
      assert FillAll(xs, ps, v) == xs;
    } else {
      ReplacePieces(xs, ps[0], v);
      var ys := FillAll(xs, [ps[0]], v);
      assert FixedSafe(ys) by {
        forall i | 0 <= i < |ys| && ys[i].Fixed? ensures Opens(ys[i].s) {
          if xs[i].Pending? {
            SubstitutionSafe(ps[0], v);
            SafeOpens(ys[i].s);
          }
        }
      }
      RewritePieces(ys, ps[1..], v);
      assert FillAll(ys, ps[1..], v) == FillAll(xs, ps, v) by {
        assert ps == [ps[0]] + ps[1..];
      }
    }
  }

  lemma {:induction false} RenderPieces(parts: seq<Part>, v: Vocabulary)
    ensures Flatten(Pieces(parts)) == Render(parts)
    ensures Flatten(FillAll(Pieces(parts), Rules, v)) == Pattern(parts, v)
  {
    if parts != [] {
      RenderPieces(parts[1..], v);
      assert Pieces(parts)[1..] == Pieces(parts[1..]);
      assert FillAll(Pieces(parts), Rules, v)[1..] == FillAll(Pieces(parts[1..]), Rules, v);
      if parts[0].Slot? {
        AllRules(parts[0].slot);
      }
    }
  }

  lemma PiecesSafe(parts: seq<Part>)
    ensures FixedSafe(Pieces(parts))
  {
    var xs := Pieces(parts);
    forall i | 0 <= i < |xs| && xs[i].Fixed? ensures Opens(xs[i].s) {
      assert '<' !in parts[i].text;
    }
  }

  lemma CompileFlatten(xs: seq<Piece>, v: Vocabulary)
    requires FixedSafe(xs)
    ensures Compile(Flatten(xs), v) == Flatten(FillAll(xs, Rules, v))
  {
    RewritePieces(xs, Rules, v);
  }

  /** What a template compiles to: its text unchanged and each placeholder replaced by its
      substitution text, independently of the order of the seventeen replacements. */
  lemma CompileTemplate(parts: seq<Part>, v: Vocabulary)
    ensures Compile(Render(parts), v) == Pattern(parts, v)
  {
    RenderPieces(parts, v);
    PiecesSafe(parts);
    CompileFlatten(Pieces(parts), v);
  }

  /** Every template of `murder_messages` compiles to a token-free pattern. */
  lemma TemplatesCompile(v: Vocabulary)
    ensures forall i | 0 <= i < |MurderMessages| ::
      Safe(MurderMessages[i], Rules) && TokenFree(Compile(MurderMessages[i], v))
  {
    forall i | 0 <= i < |MurderMessages|
      ensures Safe(MurderMessages[i], Rules) && TokenFree(Compile(MurderMessages[i], v))
    {
      RenderSafe(Templates[i]);
      CompileClears(MurderMessages[i], v);
    }
  }

  /** The list after parseDeadMobs' first loop: every entry compiled, in place. */
  function CompileAll(entries: seq<string>, v: Vocabulary): (r: seq<string>)
    ensures |r| == |entries|
  {
    seq(|entries|, i requires 0 <= i < |entries| => Compile(entries[i], v))
  }

  /** After compiling, no entry contains a placeholder token, and every entry that was
      token-free already is unchanged. */
  lemma CompileAllClears(entries: seq<string>, v: Vocabulary)
    requires forall i | 0 <= i < |entries| :: Safe(entries[i], Rules)
    ensures forall i | 0 <= i < |entries| ::
      TokenFree(CompileAll(entries, v)[i]) && Safe(CompileAll(entries, v)[i], Rules) &&
      (TokenFree(entries[i]) ==> CompileAll(entries, v)[i] == entries[i])
  {
    forall i | 0 <= i < |entries|
      ensures TokenFree(CompileAll(entries, v)[i]) && Safe(CompileAll(entries, v)[i], Rules)
      ensures TokenFree(entries[i]) ==> CompileAll(entries, v)[i] == entries[i]
    {
      CompileClears(entries[i], v);
      SafeWiden(Compile(entries[i], v), Rules);
      if TokenFree(entries[i]) {
        RewriteUnchanged(entries[i], Rules, v);
      }
    }
  }

  /** parseDeadMobs' rewriting is idempotent: a second call leaves the list unchanged. */
  lemma CompileAllIdempotent(entries: seq<string>, v: Vocabulary)
    requires forall i | 0 <= i < |entries| :: Safe(entries[i], Rules)
    ensures CompileAll(CompileAll(entries, v), v) == CompileAll(entries, v)
  {
    CompileAllClears(entries, v);
    CompileAllClears(CompileAll(entries, v), v);
  }

  /** `for m in murder_messages: if re.search(m, l): return True` and `return False`. */
  method SearchAny(patterns: seq<string>, line: string, search: (string, string) -> bool) returns (found: bool)
    ensures found <==> exists i | 0 <= i < |patterns| :: search(patterns[i], line)
  {
    var i := 0;
    while i < |patterns|
      invariant 0 <= i <= |patterns|
      invariant forall j | 0 <= j < i :: !search(patterns[j], line)
    {
      if search(patterns[i], line) {
        return true;
      }
      i := i + 1;
    }
    return false;
  }

  /** The module-level `murder_messages` list, which parseDeadMobs rewrites in place. */
  class MurderTable {
    var messages: seq<string>
    /** The word lists the groups are built from (the module's lists, see the constructor). */
    const vocabulary: Vocabulary

    /** Every entry is a template or a compiled template. */
    ghost predicate Valid()
      reads this
    {
      forall i | 0 <= i < |messages| :: Safe(messages[i], Rules)
    }

    constructor ()
      ensures Valid() && messages == MurderMessages && vocabulary == SourceVocabulary
    {
      messages := MurderMessages;
      vocabulary := SourceVocabulary;
      new;
      TemplatesCompile(vocabulary);
    }

    /** The first loop of parseDeadMobs: `murder_messages[i] = m`, with m the entry
        rewritten by `rewrite`. */
    method RewriteInPlace(rewrite: string -> string)
      modifies this
      ensures |messages| == |old(messages)|
      ensures forall i | 0 <= i < |messages| :: messages[i] == rewrite(old(messages)[i])
    {
      var i := 0;
      while i < |messages|
        invariant 0 <= i <= |messages| == |old(messages)|
        invariant forall j | 0 <= j < i :: messages[j] == rewrite(old(messages)[j])
        invariant forall j | i <= j < |messages| :: messages[j] == old(messages)[j]
      {
        messages := messages[i := rewrite(messages[i])];
        i := i + 1;
      }
    }

    /** parseDeadMobs: compile every entry in place, then report whether any pattern matches
        the line. `search(pattern, line)` stands for `re.search`. */
    method ParseDeadMobs(line: string, search: (string, string) -> bool) returns (found: bool)
      requires Valid()
      modifies this
      ensures Valid()
      ensures messages == CompileAll(old(messages), vocabulary)
      ensures found <==> exists i | 0 <= i < |messages| :: search(messages[i], line)
    {
      CompileAllClears(messages, vocabulary);
      RewriteInPlace(m => Compile(m, vocabulary));
      assert messages == CompileAll(old(messages), vocabulary);
      found := SearchAny(messages, line, search);
    }
  }

  // ---------------------------------------------------------------------------
  // Counting deaths by mob (parseMobMessages, mobmessages.py:212-235).

  /** What the death pattern captured: the player (group 6), the mob (group 10) and the
      line's time. */
  datatype MobDeath = MobDeath(name: string, mob: string, at: Timestamps.Time)

  function Deaths(players: map<string, Helpers.Player>, name: string, mob: string): int {
    if name in players && mob in players[name].deathsByMob then players[name].deathsByMob[mob] else 0
  }

  /** ensurePlayer, then `deathsByMob[mob]` set to 1 when missing or 0, else raised by one. */
  function CountDeath(players: map<string, Helpers.Player>, d: MobDeath): (r: map<string, Helpers.Player>)
    ensures d.name in r && r - {d.name} == players - {d.name}
    ensures Deaths(r, d.name, d.mob) == Deaths(players, d.name, d.mob) + 1
    ensures forall m | m != d.mob :: Deaths(r, d.name, m) == Deaths(players, d.name, m)
    ensures r[d.name] == Helpers.Known(players, d.name, d.at).(deathsByMob := r[d.name].deathsByMob)
  {
    var players := Helpers.AddPlayer(players, d.name, d.at).0;
    var counts := players[d.name].deathsByMob;
    var counts := if d.mob !in counts || counts[d.mob] == 0 then counts[d.mob := 1] else counts[d.mob := counts[d.mob] + 1];
    players[d.name := players[d.name].(deathsByMob := counts)]
  }

  /** Counting deaths touches no session, so the store stays consistent. */
  lemma CountDeathKeepsConsistent(data: Helpers.Data, d: MobDeath)
    requires Helpers.Consistent(data)
    ensures Helpers.Consistent(Helpers.Data(CountDeath(data.players, d), data.activeSessions))
  {
    var r := CountDeath(data.players, d);
    forall n ensures Helpers.OpenCount(r, n) == Helpers.OpenCount(data.players, n) {
      if n != d.name && n in r {
        assert r[n] == (r - {d.name})[n];
      }
    }
  }

  /** A sequence of captured deaths, counted one after the other. */
  function CountDeaths(players: map<string, Helpers.Player>, ds: seq<MobDeath>): map<string, Helpers.Player>
  {
    if ds == [] then players else CountDeath(CountDeaths(players, ds[..|ds| - 1]), ds[|ds| - 1])
  }

  function Occurrences(ds: seq<MobDeath>, name: string, mob: string): nat {
    if ds == [] then 0
    else Occurrences(ds[..|ds| - 1], name, mob) + (if ds[|ds| - 1].name == name && ds[|ds| - 1].mob == mob then 1 else 0)
  }

  /** Each player's count for each mob is its old count plus the number of matching lines. */
  lemma {:induction false} DeathsCount(players: map<string, Helpers.Player>, ds: seq<MobDeath>)
    ensures forall n, m :: Deaths(CountDeaths(players, ds), n, m) == Deaths(players, n, m) + Occurrences(ds, n, m)
    decreases |ds|
  {
    if ds != [] {
      DeathsCount(players, ds[..|ds| - 1]);
      var before := CountDeaths(players, ds[..|ds| - 1]);
      var d := ds[|ds| - 1];
      var r := CountDeath(before, d);
      forall n, m ensures Deaths(r, n, m) == Deaths(before, n, m) + (if d.name == n && d.mob == m then 1 else 0) {
        if n != d.name && n in r {
          assert r[n] == (r - {d.name})[n];
        }
      }
    }
  }

  /** parseMobMessages with the player created by ensurePlayer. `death` is what the pattern
      captured from the line, None when it does not match. */
  method ParseMobMessages(store: Helpers.Store, death: Option<MobDeath>) returns (matched: bool)
    requires store.Valid()
    modifies store
    ensures store.Valid()
    ensures matched <==> death.Some?
    ensures death.None? ==> store.Value() == old(store.Value())
    ensures death.Some? ==>
      store.players == CountDeath(old(store.players), death.value) &&
      store.activeSessions == old(store.activeSessions)
  {
    if death.None? {
      return false;
    }
    var d := death.value;
    CountDeathKeepsConsistent(store.Value(), d);
    var _ := store.EnsurePlayer(d.name, d.at);
    var p := store.players[d.name];
    var counts := p.deathsByMob;
    if d.mob !in counts || counts[d.mob] == 0 {
      counts := counts[d.mob := 1];
    } else {
      counts := counts[d.mob := counts[d.mob] + 1];
    }
    store.players := store.players[d.name := p.(deathsByMob := counts)];
    matched := true;
  }

  /** parseMobMessages as written: `helpers.createPlayer` names a module whose import is
      commented out, so every matching line raises NameError before anything is counted. */
  function ParseMobMessagesAsWritten(players: map<string, Helpers.Player>, death: Option<MobDeath>): (r: Result<bool>)
    ensures r.Ok? <==> death.None?
    ensures death.None? ==> r == Ok(false)
    ensures death.Some? ==> r == Err(NameError)
  {
    if death.None? then Ok(false) else Err(NameError)
  }

  /** The discrepancy: a matching line raises as written, while the corrected count rises by one. */
  lemma MobDeathAsWrittenRaises(players: map<string, Helpers.Player>, d: MobDeath)
    ensures ParseMobMessagesAsWritten(players, Some(d)) == Err(NameError)
    ensures Deaths(CountDeath(players, d), d.name, d.mob) == Deaths(players, d.name, d.mob) + 1
  {
  }
}
