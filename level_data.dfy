/**
 * The static per-level content table: one guide character per level with its
 * dialog lines, objective, three escalating hints and a validator over the
 * submitted code and its captured output; and the epilogue entry used after
 * the last level.
 */
module LevelData {
  import opened Wrappers
  import opened JsStrings

  /** A table entry, without its validator (the validators are the predicates below). */
  datatype LevelNpc = LevelNpc(
    name: string,
    dialog1: string,
    dialog2: string,
    dialog3: string,
    completedDialog: string,
    objective: string,
    hint1: string,
    hint2: string,
    hint3: string)
  /** The third, most direct hints; most of them quote a code snippet. */
  const LevelTwoDirectHint := "Create a variable using: let power = 10"
  const LevelThreeDirectHint := "Create a loop: " + "for" + "(let i=1; i<=5; i++) " + "console.log" + "(i)"
  const LevelFourDirectHint := "Fix the broken code: let nmae = 'hero'; " + "console.log(name); - Change 'nmae' to 'name'"
  const LevelFiveDirectHint := "Create a function: " + "function greet" + "(" + "name" + ") { " + "return" + " 'Greetings, ' + name; }"

  const LevelOne: LevelNpc := LevelNpc(
    "Elder Rowan",
    "Ah, traveler! Welcome to Sunrise Village. Calm winds, warm soil… yet something feels off, doesn't it? The sun rises twice some mornings, the river flows backward every third hour. The Script that governs our land grows fragile.",
    "I've seen your face before, though I swear we've never met. Strange… like a memory I've forgotten. The Script reacts strongly around you, as if recognizing an old friend.",
    "The Script is weakening. To wield it safely, you must learn the First Rune—the Rune of Voice, which lets you speak existence into the world. Try invoking your identity.",
    "Well done! The Script acknowledges your voice. The First Rune is yours. The portal to the next realm has opened.",
    "Use the First Rune to speak your name into existence",
    "The First Rune requires you to speak... perhaps there's a way to make the Script listen to your voice?",
    "Think about how you might log or print something to make it visible in the world. The Script responds to console commands.",
    "Try using console.log('Your Name') to invoke your identity")
  const LevelTwo: LevelNpc := LevelNpc(
    "Sage Marrelin",
    "Traveler… the fields whisper of your coming. The crops sprout twice, beasts appear without tracks, and even time bends. The Script is storing remnants of past days—like… variables overflowing.",
    "When I look at you, I sense two selves overlapping. As if the world remembers a version of you that hasn't existed yet.",
    "To stabilize this place, you must learn the Rune of Holding—the rune that stores essence for later use. Channel the Script. Bind something to it.",
    "The Rune of Holding is bound. Reality bends to your will. The path forward opens.",
    "Learn the Rune of Holding to store essence",
    "The Rune of Holding captures essence and keeps it safe for later. You need a container of some kind.",
    "In the Script, essence can be stored using special binding words. Think about how you might create a container named 'power'.",
    LevelTwoDirectHint)
  const LevelThree: LevelNpc := LevelNpc(
    "Ranger Thalen",
    "Stay alert, traveler. Paths twist endlessly here. I once walked forward for hours, only to return where I started. The forest is caught in a repeating Script.",
    "You carry an echo. A rhythm. Like footsteps overlapping with your own… but ahead of you. If the future can touch the present… then maybe you aren't as simple as you believe.",
    "To navigate this forest, you must master the Rune of Order—loops that command repetition. Only then will the forest acknowledge you.",
    "The forest yields. Your loop broke the cycle. The way is clear.",
    "Master the Rune of Order to command repetition",
    "The forest repeats endlessly. Perhaps you need to command repetition yourself to break the cycle?",
    "The Rune of Order uses structures that repeat actions multiple times. Look for patterns that count or iterate.",
    LevelThreeDirectHint)
  const LevelFour: LevelNpc := LevelNpc(
    "Chrono-Warden",
    "Traveler, you've come far. This castle lies between seconds—broken shards of time stitched together. Mistakes in the Script fester here.",
    "I have guarded the fractures for centuries, but recently… I've seen another wanderer. Someone who looks like you. Someone… fractured.",
    "If time repeats, errors repeat with it. If you cannot fix them… the loop will swallow you whole. Prove you can repair a corrupted Script fragment.",
    "The corruption is cleansed. Time flows true once more. But the final fracture awaits…",
    "Repair the corrupted Script fragment",
    "Something in the Script is broken. The words don't match... look carefully at the names being used.",
    "There's a mismatch between what's declared and what's being called. One name is spelled wrong.",
    LevelFourDirectHint)
  const LevelFive: LevelNpc := LevelNpc(
    "??? (Your Future Self)",
    "So you finally made it. I hoped you would. I… am you. Or rather, what remains of you. I tried to stop the collapse and became trapped in the rift. I sent memories back—echoes… but you surpassed me.",
    "The Script responds to you more than it ever did to me. You're stronger. Wiser. And now… you must finish what I couldn't. Create the Rune of Creation itself. Only then will the loop break.",
    "If you master creation, you can rewrite fate—not just for the world… but for both versions of us. Break the loop. Write the spell.",
    "The loop is broken. Time flows forward. You are free… we are free. The world is saved.",
    "Create the Rune of Creation to rewrite fate",
    "The ultimate Rune... one that creates reusable spells. You need to forge something that can be invoked again and again.",
    "Think about creating a named spell that accepts input and produces output. The Script uses the word 'function' for this.",
    LevelFiveDirectHint)
  /** `levelData[level]`: the table has an entry for each of the levels 1 to 5 and no other. */
  function Entry(level: int): (e: Option<LevelNpc>)
    ensures e.Some? <==> 1 <= level <= 5
  {
    if level == 1 then Some(LevelOne)
    else if level == 2 then Some(LevelTwo)
    else if level == 3 then Some(LevelThree)
    else if level == 4 then Some(LevelFour)
    else if level == 5 then Some(LevelFive)
    else None
  }

  /** Level 1: the code must log, and the run must have printed something. */
  predicate ValidatorOne(code: string, output: string)
  {
    Includes(code, "console.log") && |output| > 0
  }

  /** Level 2: a variable named power, declared with let, const or var. */
  predicate ValidatorTwo(code: string)
  {
    Includes(code, "power") && (Includes(code, "let") || Includes(code, "const") || Includes(code, "var"))
  }

  /** Level 3: a loop, and either a log call or the letter i. */
  predicate ValidatorThree(code: string)
  {
    (Includes(code, "for") || Includes(code, "while")) && (Includes(code, "console.log") || Includes(code, "i"))
  }

  /** Level 4: uses name and logs, and the misspelling nmae is gone. */
  predicate ValidatorFour(code: string)
  {
    Includes(code, "name") && Includes(code, "console.log") && !Includes(code, "nmae")
  }

  /** Level 5: a function greet that returns and mentions name. */
  predicate ValidatorFive(code: string)
  {
    Includes(code, "function greet") && Includes(code, "return") && Includes(code, "name")
  }

  /** `levelData[level].validator(code, output)`. */
  predicate Validate(level: int, code: string, output: string)
    requires 1 <= level <= 5
  {
    if level == 1 then ValidatorOne(code, output)
    else if level == 2 then ValidatorTwo(code)
    else if level == 3 then ValidatorThree(code)
    else if level == 4 then ValidatorFour(code)
    else ValidatorFive(code)
  }

  /** The epilogue entry. */
  const FinalName := "Arden (Timebound Adventurer)"
  const FinalDialogLine := "The temporal fracture closes. Two timelines merge into one. You are no longer trapped. You are whole. The Script obeys you now—past, present, and future. 🎉 CONGRATULATIONS – YOU COMPLETED THE TIMEBOUND ADVENTURE!"
  const FinalObjective := ""
  const FinalHint1 := ""
  const FinalHint2 := ""
  const FinalHint3 := ""

  /** `finalDialog.validator`: no submission passes. */
  predicate FinalValidate(code: string, output: string)
  {
    false
  }

  // Properties of the validators, stated against the reference notion of
  // "occurs somewhere in the code".

  lemma ValidatorOneMeaning(code: string, output: string)
    ensures Validate(1, code, output) <==> Occurs(code, "console.log") && output != ""
  {
    IncludesIff(code, "console.log");
  }

  lemma ValidatorTwoMeaning(code: string, output: string)
    ensures Validate(2, code, output) <==>
      Occurs(code, "power") && (Occurs(code, "let") || Occurs(code, "const") || Occurs(code, "var"))
  {
    IncludesIff(code, "power");
    IncludesIff(code, "let");
    IncludesIff(code, "const");
    IncludesIff(code, "var");
  }

  lemma ValidatorThreeMeaning(code: string, output: string)
    ensures Validate(3, code, output) <==>
      (Occurs(code, "for") || Occurs(code, "while")) && (Occurs(code, "console.log") || Occurs(code, "i"))
  {
    IncludesIff(code, "for");
    IncludesIff(code, "while");
    IncludesIff(code, "console.log");
    IncludesIff(code, "i");
  }

  lemma ValidatorFourMeaning(code: string, output: string)
    ensures Validate(4, code, output) <==>
      Occurs(code, "name") && Occurs(code, "console.log") && !Occurs(code, "nmae")
  {
    IncludesIff(code, "name");
    IncludesIff(code, "console.log");
    IncludesIff(code, "nmae");
  }

  lemma ValidatorFiveMeaning(code: string, output: string)
    ensures Validate(5, code, output) <==>
      Occurs(code, "function greet") && Occurs(code, "return") && Occurs(code, "name")
  {
    IncludesIff(code, "function greet");
    IncludesIff(code, "return");
    IncludesIff(code, "name");
  }

  /** Only level 1 looks at the output; levels 2 to 5 judge the code alone. */
  lemma OutputIgnoredAfterLevelOne(level: int, code: string, output1: string, output2: string)
    requires 2 <= level <= 5
    ensures Validate(level, code, output1) == Validate(level, code, output2)
  {
  }

  /**
   * "while" contains the letter i, so any code with a while loop passes
   * level 3, whether or not it logs anything.
   */
  lemma WhileAlonePassesLevelThree(code: string, output: string)
    requires Includes(code, "while")
    ensures Validate(3, code, output)
  {
    OccursAtIncludes("while", "i", 2);
    IncludesTransitive(code, "while", "i");
  }

  // The third hints of levels 2, 3 and 5 are themselves passing submissions.

  lemma DirectHintPassesLevelTwo(output: string)
    ensures Validate(2, LevelTwoDirectHint, output)
  {
    assert LevelTwoDirectHint == "Create a variable using: " + "let" + " power = 10";
    IncludesInfix("Create a variable using: ", "let", " power = 10");
    assert LevelTwoDirectHint == "Create a variable using: let " + "power" + " = 10";
    IncludesInfix("Create a variable using: let ", "power", " = 10");
  }

  lemma DirectHintPassesLevelThree(output: string)
    ensures Validate(3, LevelThreeDirectHint, output)
  {
    var p0, p1 := "Create a loop: ", "(let i=1; i<=5; i++) ";
    IncludesInfix(p0, "for", p1);
    IncludesBefore(p0 + "for" + p1, "console.log", "for");
    IncludesBefore(p0 + "for" + p1 + "console.log", "(i)", "for");
    IncludesInfix(p0 + "for" + p1, "console.log", "(i)");
  }

  lemma DirectHintPassesLevelFive(output: string)
    ensures Validate(5, LevelFiveDirectHint, output)
  {
    var p0, p1, p2, p3 := "Create a function: ", "(", ") { ", " 'Greetings, ' + name; }";
    var s1 := p0 + "function greet" + p1;
    var s2 := s1 + "name" + p2;
    IncludesInfix(p0, "function greet", p1);
    IncludesBefore(s1, "name", "function greet");
    IncludesBefore(s1 + "name", p2, "function greet");
    IncludesBefore(s2, "return", "function greet");
    IncludesBefore(s2 + "return", p3, "function greet");
    IncludesInfix(s1, "name", p2);
    IncludesBefore(s2, "return", "name");
    IncludesBefore(s2 + "return", p3, "name");
    IncludesInfix(s2, "return", p3);
  }

  /**
   * The third hint of level 4 quotes the broken fragment, misspelling
   * included, so submitting it verbatim fails.
   */
  lemma BrokenFragmentHintFails(output: string)
    ensures !Validate(4, LevelFourDirectHint, output)
  {
    var left := "Fix the broken code: let nmae = 'hero'; ";
    assert left == "Fix the broken code: let " + "nmae" + " = 'hero'; ";
    IncludesInfix("Fix the broken code: let ", "nmae", " = 'hero'; ");
    IncludesBefore(left, "console.log(name); - Change 'nmae' to 'name'", "nmae");
  }

  /** The epilogue validator rejects every submission. */
  lemma FinalNeverPasses(code: string, output: string)
    ensures !FinalValidate(code, output)
  {
  }
}
