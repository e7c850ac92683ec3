/** The fixed text of the case query's SELECT as utils.py and utils_backup.py
    write it, held as pieces, and the fact that it has no `?` of its own. */
module QueryText {
  /** Text of utils.py's SELECT up to its single placeholder, in pieces. */
  const BaseHeadParts: seq<string> :=
    ["\n    SELECT t.* FROM ", "transacciones t\n    ", "INNER JOIN caso_", "involucrados ci ON ", "t.codunicocli_13_enc",
     " = ci.codunicocli_", "13_enc\n    WHERE ", "ci.id_caso = "]
  const BaseHead: string := Joined(BaseHeadParts)
  /** Text of utils_backup.py's SELECT up to its single placeholder. */
  const BackupHeadParts: seq<string> :=
    ["\n    SELECT t.* \n    ", "FROM transacciones t", "\n    INNER JOIN ", "caso_involucrados ci", " ON t.codunicocli_13",
     "_enc = ci.codunico", "cli_13_enc\n    ", "WHERE ci.id_caso = "]
  const BackupBaseHead: string := Joined(BackupHeadParts)
  const BaseTail: string := "\n    "

  function Joined(parts: seq<string>): string
  {
    if parts == [] then "" else Joined(parts[..|parts| - 1]) + parts[|parts| - 1]
  }

  /** Text made of pieces without a question mark has none. */
  lemma {:induction false} JoinedClean(parts: seq<string>)
    requires forall i :: 0 <= i < |parts| ==> '?' !in parts[i]
    ensures '?' !in Joined(parts)
  {
    if parts != [] {
      JoinedClean(parts[..|parts| - 1]);
    }
  }

  lemma BaseHeadClean()
    ensures '?' !in BaseHead
  {
    var parts := BaseHeadParts;
    assert '?' !in parts[0];
    assert '?' !in parts[1];
    assert '?' !in parts[2];
    assert '?' !in parts[3];
    assert '?' !in parts[4];
    assert '?' !in parts[5];
    assert '?' !in parts[6];
    assert '?' !in parts[7];
    JoinedClean(parts);
  }

  lemma BackupHeadClean()
    ensures '?' !in BackupBaseHead
  {
    var parts := BackupHeadParts;
    assert '?' !in parts[0];
    assert '?' !in parts[1];
    assert '?' !in parts[2];
    assert '?' !in parts[3];
    assert '?' !in parts[4];
    assert '?' !in parts[5];
    assert '?' !in parts[6];
    assert '?' !in parts[7];
    JoinedClean(parts);
  }
}
