/** The key table of hotkeys/utils/keys.go. */
module KeyNames {
  import opened Text

  // The key table, in two halves; "" for a code that is not in it
  function GetKeyName(keyCode: int): (name: string)
    ensures forall c :: c in name ==> Plain(c)
  {
    if keyCode <= 44 then KeyNameTo44(keyCode) else KeyNameFrom45(keyCode)
  }

  function KeyNameTo44(keyCode: int): (name: string)
    ensures forall c :: c in name ==> Plain(c)
  {
    match keyCode
    case 1 => "esc"
    case 2 => "1"
    case 3 => "2"
    case 4 => "3"
    case 5 => "4"
    case 6 => "5"
    case 7 => "6"
    case 8 => "7"
    case 9 => "8"
    case 10 => "9"
    case 11 => "0"
    case 12 => "minus"
    case 13 => "equal"
    case 14 => "backspace"
    case 15 => "tab"
    case 16 => "q"
    case 17 => "w"
    case 18 => "e"
    case 19 => "r"
    case 20 => "t"
    case 21 => "y"
    case 22 => "u"
    case 23 => "i"
    case 24 => "o"
    case 25 => "p"
    case 26 => "leftbrace"
    case 27 => "rightbrace"
    case 28 => "enter"
    case 29 => "leftctrl"
    case 30 => "a"
    case 31 => "s"
    case 32 => "d"
    case 33 => "f"
    case 34 => "g"
    case 35 => "h"
    case 36 => "j"
    case 37 => "k"
    case 38 => "l"
    case 39 => "semicolon"
    case 40 => "apostrophe"
    case 41 => "grave"
    case 42 => "leftshift"
    case 43 => "backslash"
    case 44 => "z"
    case _ => ""
  }

  function KeyNameFrom45(keyCode: int): (name: string)
    ensures forall c :: c in name ==> Plain(c)
  {
    match keyCode
    case 45 => "x"
    case 46 => "c"
    case 47 => "v"
    case 48 => "b"
    case 49 => "n"
    case 50 => "m"
    case 51 => "comma"
    case 52 => "dot"
    case 53 => "slash"
    case 54 => "rightshift"
    case 55 => "kpasterisk"
    case 56 => "leftalt"
    case 57 => "space"
    case 58 => "capslock"
    case 59 => "f1"
    case 60 => "f2"
    case 61 => "f3"
    case 62 => "f4"
    case 63 => "f5"
    case 64 => "f6"
    case 65 => "f7"
    case 66 => "f8"
    case 67 => "f9"
    case 68 => "f10"
    case 69 => "numlock"
    case 70 => "scrolllock"
    case 71 => "kp7"
    case 72 => "kp8"
    case 73 => "kp9"
    case 74 => "kpminus"
    case 75 => "kp4"
    case 76 => "kp5"
    case 77 => "kp6"
    case 78 => "kpplus"
    case 79 => "kp1"
    case 80 => "kp2"
    case 81 => "kp3"
    case 82 => "kp0"
    case 83 => "kpdot"
    case 97 => "rightctrl"
    case 100 => "rightalt"
    case 125 => "leftmeta"
    case 126 => "rightmeta"
    case 193 => "f23"
    case _ => ""
  }

  // ----- Different keys have different names

  /** A number that tells the names of the key table apart. */
  function Mark(name: string): int
    requires name != ""
  {
    3 * name[0] as int + 5 * name[|name| - 1] as int + 5 * name[|name| / 2] as int
  }

  // The key code with a given mark, in two halves
  function MarkedTo44(mark: int): int {
    match mark
    case 1373 => 1
    case 637 => 2
    case 650 => 3
    case 663 => 4
    case 676 => 5
    case 689 => 6
    case 702 => 7
    case 715 => 8
    case 728 => 9
    case 741 => 10
    case 624 => 11
    case 1452 => 12
    case 1428 => 13
    case 1374 => 14
    case 1323 => 15
    case 1469 => 16
    case 1547 => 17
    case 1313 => 18
    case 1482 => 19
    case 1508 => 20
    case 1573 => 21
    case 1521 => 22
    case 1365 => 23
    case 1443 => 24
    case 1456 => 25
    case 1319 => 26
    case 1337 => 27
    case 1453 => 28
    case 1359 => 29
    case 1261 => 30
    case 1495 => 31
    case 1300 => 32
    case 1326 => 33
    case 1339 => 34
    case 1352 => 35
    case 1378 => 36
    case 1391 => 37
    case 1404 => 38
    case 1390 => 39
    case 1366 => 40
    case 1299 => 41
    case 1479 => 42
    case 1389 => 43
    case 1586 => 44
    case _ => 0
  }

  function MarkedFrom45(mark: int): int {
    match mark
    case 1560 => 45
    case 1287 => 46
    case 1534 => 47
    case 1274 => 48
    case 1430 => 49
    case 1417 => 50
    case 1327 => 51
    case 1435 => 52
    case 1350 => 53
    case 1497 => 54
    case 1361 => 55
    case 1484 => 56
    case 1335 => 57
    case 1372 => 58
    case 796 => 59
    case 806 => 60
    case 816 => 61
    case 826 => 62
    case 836 => 63
    case 846 => 64
    case 856 => 65
    case 866 => 66
    case 876 => 67
    case 791 => 68
    case 1405 => 69
    case 1420 => 70
    case 1156 => 71
    case 1161 => 72
    case 1166 => 73
    case 1421 => 74
    case 1141 => 75
    case 1146 => 76
    case 1151 => 77
    case 1436 => 78
    case 1126 => 79
    case 1131 => 80
    case 1136 => 81
    case 1121 => 82
    case 1401 => 83
    case 1462 => 97
    case 1502 => 100
    case 1354 => 125
    case 1407 => 126
    case 811 => 193
    case _ => 0
  }

  lemma MarkTo9(code: int)
    requires code <= 9 && GetKeyName(code) != ""
    ensures MarkedTo44(Mark(GetKeyName(code))) == code && MarkedFrom45(Mark(GetKeyName(code))) == 0
  {
  }

  lemma MarkTo18(code: int)
    requires 9 < code <= 18 && GetKeyName(code) != ""
    ensures MarkedTo44(Mark(GetKeyName(code))) == code && MarkedFrom45(Mark(GetKeyName(code))) == 0
  {
  }

  lemma MarkTo27(code: int)
    requires 18 < code <= 27 && GetKeyName(code) != ""
    ensures MarkedTo44(Mark(GetKeyName(code))) == code && MarkedFrom45(Mark(GetKeyName(code))) == 0
  {
  }

  lemma MarkTo36(code: int)
    requires 27 < code <= 36 && GetKeyName(code) != ""
    ensures MarkedTo44(Mark(GetKeyName(code))) == code && MarkedFrom45(Mark(GetKeyName(code))) == 0
  {
  }

  lemma MarkTo44(code: int)
    requires 36 < code <= 44 && GetKeyName(code) != ""
    ensures MarkedTo44(Mark(GetKeyName(code))) == code && MarkedFrom45(Mark(GetKeyName(code))) == 0
  {
  }

  lemma MarkTo52(code: int)
    requires 44 < code <= 52 && GetKeyName(code) != ""
    ensures MarkedFrom45(Mark(GetKeyName(code))) == code && MarkedTo44(Mark(GetKeyName(code))) == 0
  {
  }

  lemma MarkTo60(code: int)
    requires 52 < code <= 60 && GetKeyName(code) != ""
    ensures MarkedFrom45(Mark(GetKeyName(code))) == code && MarkedTo44(Mark(GetKeyName(code))) == 0
  {
  }

  lemma MarkTo66(code: int)
    requires 60 < code <= 66 && GetKeyName(code) != ""
    ensures MarkedFrom45(Mark(GetKeyName(code))) == code && MarkedTo44(Mark(GetKeyName(code))) == 0
  {
  }

  lemma MarkTo72(code: int)
    requires 66 < code <= 72 && GetKeyName(code) != ""
    ensures MarkedFrom45(Mark(GetKeyName(code))) == code && MarkedTo44(Mark(GetKeyName(code))) == 0
  {
  }

  lemma MarkTo78(code: int)
    requires 72 < code <= 78 && GetKeyName(code) != ""
    ensures MarkedFrom45(Mark(GetKeyName(code))) == code && MarkedTo44(Mark(GetKeyName(code))) == 0
  {
  }

  lemma MarkFrom79(code: int)
    requires 78 < code && GetKeyName(code) != ""
    ensures MarkedFrom45(Mark(GetKeyName(code))) == code && MarkedTo44(Mark(GetKeyName(code))) == 0
  {
  }

  lemma CodeOfMark(code: int)
    requires GetKeyName(code) != ""
    ensures code == MarkedTo44(Mark(GetKeyName(code))) + MarkedFrom45(Mark(GetKeyName(code)))
  {
    if code <= 9 {
      MarkTo9(code);
    } else if code <= 18 {
      MarkTo18(code);
    } else if code <= 27 {
      MarkTo27(code);
    } else if code <= 36 {
      MarkTo36(code);
    } else if code <= 44 {
      MarkTo44(code);
    } else if code <= 52 {
      MarkTo52(code);
    } else if code <= 60 {
      MarkTo60(code);
    } else if code <= 66 {
      MarkTo66(code);
    } else if code <= 72 {
      MarkTo72(code);
    } else if code <= 78 {
      MarkTo78(code);
    } else {
      MarkFrom79(code);
    }
  }

  /** No two codes of the key table have the same name. */
  lemma KeyNamesDiffer(code: int, other: int)
    requires GetKeyName(code) != "" && GetKeyName(code) == GetKeyName(other)
    ensures code == other
  {
    CodeOfMark(code);
    CodeOfMark(other);
  }
}
