/**
 * The furnace level translator: a fixed table from furnace levels 31..84 to
 * display labels ("30-1".."30-4", then "FC n" and "FC n - k"), with the
 * decimal string of the level as the fallback for every other level.
 */
module LevelTranslator {
  import opened Wrappers
  import opened Decimal

  /**
   * The label table, entry for entry as the bot defines it: the label of a
   * level that has an entry, None for a level that has none. It is a match
   * over the literal levels rather than a 54-entry map display, because the
   * verifier cannot resolve a lookup that deep in a map display at a
   * symbolic key.
   */
  function LevelMapping(level: int): (entry: Option<string>)
    ensures entry.Some? <==> 31 <= level <= 84
  {
    match level
    case 31 => Some("30-1")
    case 32 => Some("30-2")
    case 33 => Some("30-3")
    case 34 => Some("30-4")
    case 35 => Some("FC 1")
    case 36 => Some("FC 1 - 1")
    case 37 => Some("FC 1 - 2")
    case 38 => Some("FC 1 - 3")
    case 39 => Some("FC 1 - 4")
    case 40 => Some("FC 2")
    case 41 => Some("FC 2 - 1")
    case 42 => Some("FC 2 - 2")
    case 43 => Some("FC 2 - 3")
    case 44 => Some("FC 2 - 4")
    case 45 => Some("FC 3")
    case 46 => Some("FC 3 - 1")
    case 47 => Some("FC 3 - 2")
    case 48 => Some("FC 3 - 3")
    case 49 => Some("FC 3 - 4")
    case 50 => Some("FC 4")
    case 51 => Some("FC 4 - 1")
    case 52 => Some("FC 4 - 2")
    case 53 => Some("FC 4 - 3")
    case 54 => Some("FC 4 - 4")
    case 55 => Some("FC 5")
    case 56 => Some("FC 5 - 1")
    case 57 => Some("FC 5 - 2")
    case 58 => Some("FC 5 - 3")
    case 59 => Some("FC 5 - 4")
    case 60 => Some("FC 6")
    case 61 => Some("FC 6 - 1")
    case 62 => Some("FC 6 - 2")
    case 63 => Some("FC 6 - 3")
    case 64 => Some("FC 6 - 4")
    case 65 => Some("FC 7")
    case 66 => Some("FC 7 - 1")
    case 67 => Some("FC 7 - 2")
    case 68 => Some("FC 7 - 3")
    case 69 => Some("FC 7 - 4")
    case 70 => Some("FC 8")
    case 71 => Some("FC 8 - 1")
    case 72 => Some("FC 8 - 2")
    case 73 => Some("FC 8 - 3")
    case 74 => Some("FC 8 - 4")
    case 75 => Some("FC 9")
    case 76 => Some("FC 9 - 1")
    case 77 => Some("FC 9 - 2")
    case 78 => Some("FC 9 - 3")
    case 79 => Some("FC 9 - 4")
    case 80 => Some("FC 10")
    case 81 => Some("FC 10 - 1")
    case 82 => Some("FC 10 - 2")
    case 83 => Some("FC 10 - 3")
    case 84 => Some("FC 10 - 4")
    case _ => None
  }

  /** `level_mapping.get(level, str(level))`: the table entry, or the decimal string when there is none. */
  function Translate(level: int): string {
    match LevelMapping(level)
    case Some(entry) => entry
    case None => IntToString(level)
  }

  /**
   * Reference definition of the naming convention: levels 31..34 are the
   * sub-stages 1..4 of stage 30; from 35 on, every five levels form one
   * furnace-crystal stage n, whose first level is "FC n" and whose next four
   * are "FC n - 1" .. "FC n - 4".
   */
  function StageLabel(level: int): string
    requires 31 <= level <= 84
  {
    if level <= 34 then "30-" + IntToString(level - 30)
    else
      var stage := (level - 35) / 5 + 1;
      var sub := (level - 35) % 5;
      "FC " + IntToString(stage) + (if sub == 0 then "" else " - " + IntToString(sub))
  }

  /** Small decimals render as a single digit, and 10 as "10". */
  lemma SmallDecimal(n: int)
    requires 0 <= n <= 10
    ensures IntToString(n) == if n == 10 then "10" else [DigitChar(n)]
  {
    if n == 10 {
      assert NatToString(10) == NatToString(1) + [DigitChar(0)];
    }
  }

  // One lemma per row of the table: the row's entries follow the naming convention.

  lemma Stage30Row(level: int)
    requires 31 <= level <= 34
    ensures Translate(level) == StageLabel(level)
  {
    SmallDecimal(level - 30);
  }

  lemma StageFc1Row(level: int)
    requires 35 <= level <= 39
    ensures Translate(level) == StageLabel(level)
  {
    SmallDecimal(level - 35);
    assert IntToString(1) == "1";
  }

  lemma StageFc2Row(level: int)
    requires 40 <= level <= 44
    ensures Translate(level) == StageLabel(level)
  {
    SmallDecimal(level - 40);
    assert IntToString(2) == "2";
  }

  lemma StageFc3Row(level: int)
    requires 45 <= level <= 49
    ensures Translate(level) == StageLabel(level)
  {
    SmallDecimal(level - 45);
    assert IntToString(3) == "3";
  }

  lemma StageFc4Row(level: int)
    requires 50 <= level <= 54
    ensures Translate(level) == StageLabel(level)
  {
    SmallDecimal(level - 50);
    assert IntToString(4) == "4";
  }

  lemma StageFc5Row(level: int)
    requires 55 <= level <= 59
    ensures Translate(level) == StageLabel(level)
  {
    SmallDecimal(level - 55);
    assert IntToString(5) == "5";
  }

  lemma StageFc6Row(level: int)
    requires 60 <= level <= 64
    ensures Translate(level) == StageLabel(level)
  {
    SmallDecimal(level - 60);
    assert IntToString(6) == "6";
  }

  lemma StageFc7Row(level: int)
    requires 65 <= level <= 69
    ensures Translate(level) == StageLabel(level)
  {
    SmallDecimal(level - 65);
    assert IntToString(7) == "7";
  }

  lemma StageFc8Row(level: int)
    requires 70 <= level <= 74
    ensures Translate(level) == StageLabel(level)
  {
    SmallDecimal(level - 70);
    assert IntToString(8) == "8";
  }

  lemma StageFc9Row(level: int)
    requires 75 <= level <= 79
    ensures Translate(level) == StageLabel(level)
  {
    SmallDecimal(level - 75);
    assert IntToString(9) == "9";
  }

  lemma StageFc10Row(level: int)
    requires 80 <= level <= 84
    ensures Translate(level) == StageLabel(level)
  {
    SmallDecimal(level - 80);
    SmallDecimal(10);
  }

  /**
   * The table covers exactly the levels 31..84, its entries follow the
   * stage / sub-stage naming convention, and every other level is shown as
   * its decimal string.
   */
  lemma TranslateFollowsConvention(level: int)
    ensures LevelMapping(level).Some? <==> 31 <= level <= 84
    ensures Translate(level) == if 31 <= level <= 84 then StageLabel(level) else IntToString(level)
  {
    if level < 31 || level > 84 {
    } else if level <= 34 {
      Stage30Row(level);
    } else if level <= 39 {
      StageFc1Row(level);
    } else if level <= 44 {
      StageFc2Row(level);
    } else if level <= 49 {
      StageFc3Row(level);
    } else if level <= 54 {
      StageFc4Row(level);
    } else if level <= 59 {
      StageFc5Row(level);
    } else if level <= 64 {
      StageFc6Row(level);
    } else if level <= 69 {
      StageFc7Row(level);
    } else if level <= 74 {
      StageFc8Row(level);
    } else if level <= 79 {
      StageFc9Row(level);
    } else if level <= 84 {
      StageFc10Row(level);
    }
  }

  /** Entries the table promises. */
  lemma TableExamples()
    ensures Translate(31) == "30-1" && Translate(34) == "30-4"
    ensures Translate(35) == "FC 1" && Translate(36) == "FC 1 - 1"
    ensures Translate(80) == "FC 10" && Translate(84) == "FC 10 - 4"
  {
  }

  /** The decimal fallback on either side of the table. */
  lemma FallbackExamples()
    ensures Translate(30) == "30" && Translate(85) == "85" && Translate(100) == "100"
    ensures Translate(0) == "0" && Translate(-5) == "-5"
  {
  }

  /** A level outside the table is shown as a string that parses back to that level. */
  lemma UnmappedLevelParsesBack(level: int)
    requires level < 31 || level > 84
    ensures ParseInt(Translate(level)) == Some(level)
  {
    RoundTrip(level);
  }

  /**
   * Every label starts with a digit, a minus sign or the 'F' of "FC", so no
   * label is one of the placeholder texts a profile view shows instead of a
   * level ("Unknown", "None").
   */
  lemma TranslateStartsLikeALevel(level: int)
    ensures var t := Translate(level); |t| >= 1 && (IsDigit(t[0]) || t[0] == '-' || t[0] == 'F')
  {
    TranslateFollowsConvention(level);
  }
}
