/**
 * The round trip of `SqlType`: `type_identifier` (nom-sql/src/common.rs:1099-1107)
 * reads back the text `Display for SqlType` (lines 108-189) writes for every
 * type but `ENUM`, and consumes exactly that text.
 *
 * For each type, the head word of its text is first shown to be no keyword
 * of the alternatives tried before its own; its own alternative then reads
 * the text, and `SqlTypeFacts` concludes that `type_identifier` returns
 * what that alternative returns.
 */
module TypeRoundTrip {
  import opened ParseCore
  import opened Numeric
  import opened Ast
  import opened SqlTypes
  import opened SqlTypeFacts
  import opened TypeReading
  import L = Literals

  // ---------------------------------------------------------------------
  // Head words against the keywords before their own alternative

  /** `SMALLINT` is no keyword of the first half's alternatives before number 1. */
  lemma {:induction false} SmallintBlocksFirst1()
    ensures FirstBlockedBefore("SMALLINT", 1)
  {
    forall i | 0 <= i < 1 ensures BlocksFrom("SMALLINT", FirstKeywords(i), 0) {
      assert DiffersAt("SMALLINT", "tinyint", 0);
    }
  }

  /** `INT` is no keyword of the first half's alternatives before number 3. */
  lemma {:induction false} IntBlocksFirst3()
    ensures FirstBlockedBefore("INT", 3)
  {
    forall i | 0 <= i < 3 ensures BlocksFrom("INT", FirstKeywords(i), 0) {
      if i == 0 {
        assert DiffersAt("INT", "tinyint", 0);
      } else if i == 1 {
        assert DiffersAt("INT", "smallint", 0);
      } else {
        // each keyword runs on past the head word with a letter
      }
    }
  }

  /** `BIGINT` is no keyword of the first half's alternatives before number 4. */
  lemma {:induction false} BigintBlocksFirst4()
    ensures FirstBlockedBefore("BIGINT", 4)
  {
    forall i | 0 <= i < 4 ensures BlocksFrom("BIGINT", FirstKeywords(i), 0) {
      if i == 0 {
        assert DiffersAt("BIGINT", "tinyint", 0);
      } else if i == 1 {
        assert DiffersAt("BIGINT", "smallint", 0);
      } else if i == 2 {
        assert DiffersAt("BIGINT", "integer", 0);
      } else {
        assert DiffersAt("BIGINT", "int", 0);
      }
    }
  }

  /** `BOOL` is no keyword of the first half's alternatives before number 5. */
  lemma {:induction false} BoolBlocksFirst5()
    ensures FirstBlockedBefore("BOOL", 5)
  {
    forall i | 0 <= i < 5 ensures BlocksFrom("BOOL", FirstKeywords(i), 0) {
      if i == 0 {
        assert DiffersAt("BOOL", "tinyint", 0);
      } else if i == 1 {
        assert DiffersAt("BOOL", "smallint", 0);
      } else if i == 2 {
        assert DiffersAt("BOOL", "integer", 0);
      } else if i == 3 {
        assert DiffersAt("BOOL", "int", 0);
      } else {
        assert DiffersAt("BOOL", "bigint", 1);
      }
    }
  }

  /** `DATETIME` is no keyword of the first half's alternatives before number 6. */
  lemma {:induction false} DatetimeBlocksFirst6()
    ensures FirstBlockedBefore("DATETIME", 6)
  {
    forall i | 0 <= i < 6 ensures BlocksFrom("DATETIME", FirstKeywords(i), 0) {
      if i == 0 {
        assert DiffersAt("DATETIME", "tinyint", 0);
      } else if i == 1 {
        assert DiffersAt("DATETIME", "smallint", 0);
      } else if i == 2 {
        assert DiffersAt("DATETIME", "integer", 0);
      } else if i == 3 {
        assert DiffersAt("DATETIME", "int", 0);
      } else if i == 4 {
        assert DiffersAt("DATETIME", "bigint", 0);
      } else {
        assert DiffersAt("DATETIME", "boolean", 0);
        assert DiffersAt("DATETIME", "bool", 0);
      }
    }
  }

  /** `DATE` is no keyword of the first half's alternatives before number 7. */
  lemma {:induction false} DateBlocksFirst7()
    ensures FirstBlockedBefore("DATE", 7)
  {
    forall i | 0 <= i < 7 ensures BlocksFrom("DATE", FirstKeywords(i), 0) {
      if i == 0 {
        assert DiffersAt("DATE", "tinyint", 0);
      } else if i == 1 {
        assert DiffersAt("DATE", "smallint", 0);
      } else if i == 2 {
        assert DiffersAt("DATE", "integer", 0);
      } else if i == 3 {
        assert DiffersAt("DATE", "int", 0);
      } else if i == 4 {
        assert DiffersAt("DATE", "bigint", 0);
      } else if i == 5 {
        assert DiffersAt("DATE", "boolean", 0);
        assert DiffersAt("DATE", "bool", 0);
      } else {
        // each keyword runs on past the head word with a letter
      }
    }
  }

  /** `DOUBLE` is no keyword of the first half's alternatives before number 8. */
  lemma {:induction false} DoubleBlocksFirst8()
    ensures FirstBlockedBefore("DOUBLE", 8)
  {
    forall i | 0 <= i < 8 ensures BlocksFrom("DOUBLE", FirstKeywords(i), 0) {
      if i == 0 {
        assert DiffersAt("DOUBLE", "tinyint", 0);
      } else if i == 1 {
        assert DiffersAt("DOUBLE", "smallint", 0);
      } else if i == 2 {
        assert DiffersAt("DOUBLE", "integer", 0);
      } else if i == 3 {
        assert DiffersAt("DOUBLE", "int", 0);
      } else if i == 4 {
        assert DiffersAt("DOUBLE", "bigint", 0);
      } else if i == 5 {
        assert DiffersAt("DOUBLE", "boolean", 0);
        assert DiffersAt("DOUBLE", "bool", 0);
      } else if i == 6 {
        assert DiffersAt("DOUBLE", "datetime", 1);
      } else {
        assert DiffersAt("DOUBLE", "date", 1);
      }
    }
  }

  /** `NUMERIC` is no keyword of the first half's alternatives before number 9. */
  lemma {:induction false} NumericBlocksFirst9()
    ensures FirstBlockedBefore("NUMERIC", 9)
  {
    forall i | 0 <= i < 9 ensures BlocksFrom("NUMERIC", FirstKeywords(i), 0) {
      if i == 0 {
        assert DiffersAt("NUMERIC", "tinyint", 0);
      } else if i == 1 {
        assert DiffersAt("NUMERIC", "smallint", 0);
      } else if i == 2 {
        assert DiffersAt("NUMERIC", "integer", 0);
      } else if i == 3 {
        assert DiffersAt("NUMERIC", "int", 0);
      } else if i == 4 {
        assert DiffersAt("NUMERIC", "bigint", 0);
      } else if i == 5 {
        assert DiffersAt("NUMERIC", "boolean", 0);
        assert DiffersAt("NUMERIC", "bool", 0);
      } else if i == 6 {
        assert DiffersAt("NUMERIC", "datetime", 0);
      } else if i == 7 {
        assert DiffersAt("NUMERIC", "date", 0);
      } else {
        assert DiffersAt("NUMERIC", "double", 0);
      }
    }
  }

  /** `FLOAT` is no keyword of the first half's alternatives before number 11. */
  lemma {:induction false} FloatBlocksFirst11()
    ensures FirstBlockedBefore("FLOAT", 11)
  {
    forall i | 0 <= i < 11 ensures BlocksFrom("FLOAT", FirstKeywords(i), 0) {
      if i == 0 {
        assert DiffersAt("FLOAT", "tinyint", 0);
      } else if i == 1 {
        assert DiffersAt("FLOAT", "smallint", 0);
      } else if i == 2 {
        assert DiffersAt("FLOAT", "integer", 0);
      } else if i == 3 {
        assert DiffersAt("FLOAT", "int", 0);
      } else if i == 4 {
        assert DiffersAt("FLOAT", "bigint", 0);
      } else if i == 5 {
        assert DiffersAt("FLOAT", "boolean", 0);
        assert DiffersAt("FLOAT", "bool", 0);
      } else if i == 6 {
        assert DiffersAt("FLOAT", "datetime", 0);
      } else if i == 7 {
        assert DiffersAt("FLOAT", "date", 0);
      } else if i == 8 {
        assert DiffersAt("FLOAT", "double", 0);
      } else if i == 9 {
        assert DiffersAt("FLOAT", "numeric", 0);
      } else {
        assert DiffersAt("FLOAT", "enum", 0);
      }
    }
  }

  /** `REAL` is no keyword of the first half's alternatives before number 12. */
  lemma {:induction false} RealBlocksFirst12()
    ensures FirstBlockedBefore("REAL", 12)
  {
    forall i | 0 <= i < 12 ensures BlocksFrom("REAL", FirstKeywords(i), 0) {
      if i == 0 {
        assert DiffersAt("REAL", "tinyint", 0);
      } else if i == 1 {
        assert DiffersAt("REAL", "smallint", 0);
      } else if i == 2 {
        assert DiffersAt("REAL", "integer", 0);
      } else if i == 3 {
        assert DiffersAt("REAL", "int", 0);
      } else if i == 4 {
        assert DiffersAt("REAL", "bigint", 0);
      } else if i == 5 {
        assert DiffersAt("REAL", "boolean", 0);
        assert DiffersAt("REAL", "bool", 0);
      } else if i == 6 {
        assert DiffersAt("REAL", "datetime", 0);
      } else if i == 7 {
        assert DiffersAt("REAL", "date", 0);
      } else if i == 8 {
        assert DiffersAt("REAL", "double", 0);
      } else if i == 9 {
        assert DiffersAt("REAL", "numeric", 0);
      } else if i == 10 {
        assert DiffersAt("REAL", "enum", 0);
      } else {
        assert DiffersAt("REAL", "float", 0);
      }
    }
  }

  /** `TEXT` is no keyword of the first half's alternatives before number 13. */
  lemma {:induction false} TextBlocksFirst13()
    ensures FirstBlockedBefore("TEXT", 13)
  {
    forall i | 0 <= i < 13 ensures BlocksFrom("TEXT", FirstKeywords(i), 0) {
      if i == 0 {
        assert DiffersAt("TEXT", "tinyint", 1);
      } else if i == 1 {
        assert DiffersAt("TEXT", "smallint", 0);
      } else if i == 2 {
        assert DiffersAt("TEXT", "integer", 0);
      } else if i == 3 {
        assert DiffersAt("TEXT", "int", 0);
      } else if i == 4 {
        assert DiffersAt("TEXT", "bigint", 0);
      } else if i == 5 {
        assert DiffersAt("TEXT", "boolean", 0);
        assert DiffersAt("TEXT", "bool", 0);
      } else if i == 6 {
        assert DiffersAt("TEXT", "datetime", 0);
      } else if i == 7 {
        assert DiffersAt("TEXT", "date", 0);
      } else if i == 8 {
        assert DiffersAt("TEXT", "double", 0);
      } else if i == 9 {
        assert DiffersAt("TEXT", "numeric", 0);
      } else if i == 10 {
        assert DiffersAt("TEXT", "enum", 0);
      } else if i == 11 {
        assert DiffersAt("TEXT", "float", 0);
      } else {
        assert DiffersAt("TEXT", "real", 0);
      }
    }
  }

  /** `TIMESTAMP` is no keyword of the first half's alternatives before number 14. */
  lemma {:induction false} TimestampBlocksFirst14()
    ensures FirstBlockedBefore("TIMESTAMP", 14)
  {
    forall i | 0 <= i < 14 ensures BlocksFrom("TIMESTAMP", FirstKeywords(i), 0) {
      if i == 0 {
        assert DiffersAt("TIMESTAMP", "tinyint", 2);
      } else if i == 1 {
        assert DiffersAt("TIMESTAMP", "smallint", 0);
      } else if i == 2 {
        assert DiffersAt("TIMESTAMP", "integer", 0);
      } else if i == 3 {
        assert DiffersAt("TIMESTAMP", "int", 0);
      } else if i == 4 {
        assert DiffersAt("TIMESTAMP", "bigint", 0);
      } else if i == 5 {
        assert DiffersAt("TIMESTAMP", "boolean", 0);
        assert DiffersAt("TIMESTAMP", "bool", 0);
      } else if i == 6 {
        assert DiffersAt("TIMESTAMP", "datetime", 0);
      } else if i == 7 {
        assert DiffersAt("TIMESTAMP", "date", 0);
      } else if i == 8 {
        assert DiffersAt("TIMESTAMP", "double", 0);
      } else if i == 9 {
        assert DiffersAt("TIMESTAMP", "numeric", 0);
      } else if i == 10 {
        assert DiffersAt("TIMESTAMP", "enum", 0);
      } else if i == 11 {
        assert DiffersAt("TIMESTAMP", "float", 0);
      } else if i == 12 {
        assert DiffersAt("TIMESTAMP", "real", 0);
      } else {
        assert DiffersAt("TIMESTAMP", "text", 1);
      }
    }
  }

  /** `VARCHAR` is no keyword of the first half's alternatives before number 16. */
  lemma {:induction false} VarcharBlocksFirst16()
    ensures FirstBlockedBefore("VARCHAR", 16)
  {
    forall i | 0 <= i < 16 ensures BlocksFrom("VARCHAR", FirstKeywords(i), 0) {
      if i == 0 {
        assert DiffersAt("VARCHAR", "tinyint", 0);
      } else if i == 1 {
        assert DiffersAt("VARCHAR", "smallint", 0);
      } else if i == 2 {
        assert DiffersAt("VARCHAR", "integer", 0);
      } else if i == 3 {
        assert DiffersAt("VARCHAR", "int", 0);
      } else if i == 4 {
        assert DiffersAt("VARCHAR", "bigint", 0);
      } else if i == 5 {
        assert DiffersAt("VARCHAR", "boolean", 0);
        assert DiffersAt("VARCHAR", "bool", 0);
      } else if i == 6 {
        assert DiffersAt("VARCHAR", "datetime", 0);
      } else if i == 7 {
        assert DiffersAt("VARCHAR", "date", 0);
      } else if i == 8 {
        assert DiffersAt("VARCHAR", "double", 0);
      } else if i == 9 {
        assert DiffersAt("VARCHAR", "numeric", 0);
      } else if i == 10 {
        assert DiffersAt("VARCHAR", "enum", 0);
      } else if i == 11 {
        assert DiffersAt("VARCHAR", "float", 0);
      } else if i == 12 {
        assert DiffersAt("VARCHAR", "real", 0);
      } else if i == 13 {
        assert DiffersAt("VARCHAR", "text", 0);
      } else if i == 14 {
        assert DiffersAt("VARCHAR", "timestamp", 0);
      } else {
        assert DiffersAt("VARCHAR", "timestamp", 0);
      }
    }
  }

  /** `CHAR` is no keyword of the first half's alternatives before number 17. */
  lemma {:induction false} CharBlocksFirst17()
    ensures FirstBlockedBefore("CHAR", 17)
  {
    forall i | 0 <= i < 17 ensures BlocksFrom("CHAR", FirstKeywords(i), 0) {
      if i == 0 {
        assert DiffersAt("CHAR", "tinyint", 0);
      } else if i == 1 {
        assert DiffersAt("CHAR", "smallint", 0);
      } else if i == 2 {
        assert DiffersAt("CHAR", "integer", 0);
      } else if i == 3 {
        assert DiffersAt("CHAR", "int", 0);
      } else if i == 4 {
        assert DiffersAt("CHAR", "bigint", 0);
      } else if i == 5 {
        assert DiffersAt("CHAR", "boolean", 0);
        assert DiffersAt("CHAR", "bool", 0);
      } else if i == 6 {
        assert DiffersAt("CHAR", "datetime", 0);
      } else if i == 7 {
        assert DiffersAt("CHAR", "date", 0);
      } else if i == 8 {
        assert DiffersAt("CHAR", "double", 0);
      } else if i == 9 {
        assert DiffersAt("CHAR", "numeric", 0);
      } else if i == 10 {
        assert DiffersAt("CHAR", "enum", 0);
      } else if i == 11 {
        assert DiffersAt("CHAR", "float", 0);
      } else if i == 12 {
        assert DiffersAt("CHAR", "real", 0);
      } else if i == 13 {
        assert DiffersAt("CHAR", "text", 0);
      } else if i == 14 {
        assert DiffersAt("CHAR", "timestamp", 0);
      } else if i == 15 {
        assert DiffersAt("CHAR", "timestamp", 0);
      } else {
        assert DiffersAt("CHAR", "varchar", 0);
      }
    }
  }

  /** `TIME` is no keyword of the first half of `type_identifier`. */
  lemma {:induction false} TimePassesFirstHalf()
    ensures FirstBlockedBefore("TIME", 18)
  {
    forall i | 0 <= i < 18 ensures BlocksFrom("TIME", FirstKeywords(i), 0) {
      if i == 0 {
        assert DiffersAt("TIME", "tinyint", 2);
      } else if i == 1 {
        assert DiffersAt("TIME", "smallint", 0);
      } else if i == 2 {
        assert DiffersAt("TIME", "integer", 0);
      } else if i == 3 {
        assert DiffersAt("TIME", "int", 0);
      } else if i == 4 {
        assert DiffersAt("TIME", "bigint", 0);
      } else if i == 5 {
        assert DiffersAt("TIME", "boolean", 0);
        assert DiffersAt("TIME", "bool", 0);
      } else if i == 6 {
        assert DiffersAt("TIME", "datetime", 0);
      } else if i == 7 {
        assert DiffersAt("TIME", "date", 0);
      } else if i == 8 {
        assert DiffersAt("TIME", "double", 0);
      } else if i == 9 {
        assert DiffersAt("TIME", "numeric", 0);
      } else if i == 10 {
        assert DiffersAt("TIME", "enum", 0);
      } else if i == 11 {
        assert DiffersAt("TIME", "float", 0);
      } else if i == 12 {
        assert DiffersAt("TIME", "real", 0);
      } else if i == 13 {
        assert DiffersAt("TIME", "text", 1);
      } else if i == 14 {
        // each keyword runs on past the head word with a letter
      } else if i == 15 {
        // each keyword runs on past the head word with a letter
      } else if i == 16 {
        assert DiffersAt("TIME", "varchar", 0);
        assert DiffersAt("TIME", "character", 0);
      } else {
        assert DiffersAt("TIME", "char", 0);
      }
    }
  }

  /** `DECIMAL` is no keyword of the first half of `type_identifier`. */
  lemma {:induction false} DecimalPassesFirstHalf()
    ensures FirstBlockedBefore("DECIMAL", 18)
  {
    forall i | 0 <= i < 18 ensures BlocksFrom("DECIMAL", FirstKeywords(i), 0) {
      if i == 0 {
        assert DiffersAt("DECIMAL", "tinyint", 0);
      } else if i == 1 {
        assert DiffersAt("DECIMAL", "smallint", 0);
      } else if i == 2 {
        assert DiffersAt("DECIMAL", "integer", 0);
      } else if i == 3 {
        assert DiffersAt("DECIMAL", "int", 0);
      } else if i == 4 {
        assert DiffersAt("DECIMAL", "bigint", 0);
      } else if i == 5 {
        assert DiffersAt("DECIMAL", "boolean", 0);
        assert DiffersAt("DECIMAL", "bool", 0);
      } else if i == 6 {
        assert DiffersAt("DECIMAL", "datetime", 1);
      } else if i == 7 {
        assert DiffersAt("DECIMAL", "date", 1);
      } else if i == 8 {
        assert DiffersAt("DECIMAL", "double", 1);
      } else if i == 9 {
        assert DiffersAt("DECIMAL", "numeric", 0);
      } else if i == 10 {
        assert DiffersAt("DECIMAL", "enum", 0);
      } else if i == 11 {
        assert DiffersAt("DECIMAL", "float", 0);
      } else if i == 12 {
        assert DiffersAt("DECIMAL", "real", 0);
      } else if i == 13 {
        assert DiffersAt("DECIMAL", "text", 0);
      } else if i == 14 {
        assert DiffersAt("DECIMAL", "timestamp", 0);
      } else if i == 15 {
        assert DiffersAt("DECIMAL", "timestamp", 0);
      } else if i == 16 {
        assert DiffersAt("DECIMAL", "varchar", 0);
        assert DiffersAt("DECIMAL", "character", 0);
      } else {
        assert DiffersAt("DECIMAL", "char", 0);
      }
    }
  }

  /** `DECIMAL` is no keyword of the second half's alternatives before number 1. */
  lemma {:induction false} DecimalBlocksSecond1()
    ensures SecondBlockedBefore("DECIMAL", 1)
  {
    forall i | 0 <= i < 1 ensures BlocksFrom("DECIMAL", SecondKeywords(i), 0) {
      assert DiffersAt("DECIMAL", "time", 0);
    }
  }

  /** `BINARY` is no keyword of the first half of `type_identifier`. */
  lemma {:induction false} BinaryPassesFirstHalf()
    ensures FirstBlockedBefore("BINARY", 18)
  {
    forall i | 0 <= i < 18 ensures BlocksFrom("BINARY", FirstKeywords(i), 0) {
      if i == 0 {
        assert DiffersAt("BINARY", "tinyint", 0);
      } else if i == 1 {
        assert DiffersAt("BINARY", "smallint", 0);
      } else if i == 2 {
        assert DiffersAt("BINARY", "integer", 0);
      } else if i == 3 {
        assert DiffersAt("BINARY", "int", 0);
      } else if i == 4 {
        assert DiffersAt("BINARY", "bigint", 2);
      } else if i == 5 {
        assert DiffersAt("BINARY", "boolean", 1);
        assert DiffersAt("BINARY", "bool", 1);
      } else if i == 6 {
        assert DiffersAt("BINARY", "datetime", 0);
      } else if i == 7 {
        assert DiffersAt("BINARY", "date", 0);
      } else if i == 8 {
        assert DiffersAt("BINARY", "double", 0);
      } else if i == 9 {
        assert DiffersAt("BINARY", "numeric", 0);
      } else if i == 10 {
        assert DiffersAt("BINARY", "enum", 0);
      } else if i == 11 {
        assert DiffersAt("BINARY", "float", 0);
      } else if i == 12 {
        assert DiffersAt("BINARY", "real", 0);
      } else if i == 13 {
        assert DiffersAt("BINARY", "text", 0);
      } else if i == 14 {
        assert DiffersAt("BINARY", "timestamp", 0);
      } else if i == 15 {
        assert DiffersAt("BINARY", "timestamp", 0);
      } else if i == 16 {
        assert DiffersAt("BINARY", "varchar", 0);
        assert DiffersAt("BINARY", "character", 0);
      } else {
        assert DiffersAt("BINARY", "char", 0);
      }
    }
  }

  /** `BINARY` is no keyword of the second half's alternatives before number 2. */
  lemma {:induction false} BinaryBlocksSecond2()
    ensures SecondBlockedBefore("BINARY", 2)
  {
    forall i | 0 <= i < 2 ensures BlocksFrom("BINARY", SecondKeywords(i), 0) {
      if i == 0 {
        assert DiffersAt("BINARY", "time", 0);
      } else {
        assert DiffersAt("BINARY", "decimal", 0);
        assert DiffersAt("BINARY", "numeric", 0);
      }
    }
  }

  /** `BLOB` is no keyword of the first half of `type_identifier`. */
  lemma {:induction false} BlobPassesFirstHalf()
    ensures FirstBlockedBefore("BLOB", 18)
  {
    forall i | 0 <= i < 18 ensures BlocksFrom("BLOB", FirstKeywords(i), 0) {
      if i == 0 {
        assert DiffersAt("BLOB", "tinyint", 0);
      } else if i == 1 {
        assert DiffersAt("BLOB", "smallint", 0);
      } else if i == 2 {
        assert DiffersAt("BLOB", "integer", 0);
      } else if i == 3 {
        assert DiffersAt("BLOB", "int", 0);
      } else if i == 4 {
        assert DiffersAt("BLOB", "bigint", 1);
      } else if i == 5 {
        assert DiffersAt("BLOB", "boolean", 1);
        assert DiffersAt("BLOB", "bool", 1);
      } else if i == 6 {
        assert DiffersAt("BLOB", "datetime", 0);
      } else if i == 7 {
        assert DiffersAt("BLOB", "date", 0);
      } else if i == 8 {
        assert DiffersAt("BLOB", "double", 0);
      } else if i == 9 {
        assert DiffersAt("BLOB", "numeric", 0);
      } else if i == 10 {
        assert DiffersAt("BLOB", "enum", 0);
      } else if i == 11 {
        assert DiffersAt("BLOB", "float", 0);
      } else if i == 12 {
        assert DiffersAt("BLOB", "real", 0);
      } else if i == 13 {
        assert DiffersAt("BLOB", "text", 0);
      } else if i == 14 {
        assert DiffersAt("BLOB", "timestamp", 0);
      } else if i == 15 {
        assert DiffersAt("BLOB", "timestamp", 0);
      } else if i == 16 {
        assert DiffersAt("BLOB", "varchar", 0);
        assert DiffersAt("BLOB", "character", 0);
      } else {
        assert DiffersAt("BLOB", "char", 0);
      }
    }
  }

  /** `BLOB` is no keyword of the second half's alternatives before number 3. */
  lemma {:induction false} BlobBlocksSecond3()
    ensures SecondBlockedBefore("BLOB", 3)
  {
    forall i | 0 <= i < 3 ensures BlocksFrom("BLOB", SecondKeywords(i), 0) {
      if i == 0 {
        assert DiffersAt("BLOB", "time", 0);
      } else if i == 1 {
        assert DiffersAt("BLOB", "decimal", 0);
        assert DiffersAt("BLOB", "numeric", 0);
      } else {
        assert DiffersAt("BLOB", "binary", 1);
      }
    }
  }

  /** `LONGBLOB` is no keyword of the first half of `type_identifier`. */
  lemma {:induction false} LongblobPassesFirstHalf()
    ensures FirstBlockedBefore("LONGBLOB", 18)
  {
    forall i | 0 <= i < 18 ensures BlocksFrom("LONGBLOB", FirstKeywords(i), 0) {
      if i == 0 {
        assert DiffersAt("LONGBLOB", "tinyint", 0);
      } else if i == 1 {
        assert DiffersAt("LONGBLOB", "smallint", 0);
      } else if i == 2 {
        assert DiffersAt("LONGBLOB", "integer", 0);
      } else if i == 3 {
        assert DiffersAt("LONGBLOB", "int", 0);
      } else if i == 4 {
        assert DiffersAt("LONGBLOB", "bigint", 0);
      } else if i == 5 {
        assert DiffersAt("LONGBLOB", "boolean", 0);
        assert DiffersAt("LONGBLOB", "bool", 0);
      } else if i == 6 {
        assert DiffersAt("LONGBLOB", "datetime", 0);
      } else if i == 7 {
        assert DiffersAt("LONGBLOB", "date", 0);
      } else if i == 8 {
        assert DiffersAt("LONGBLOB", "double", 0);
      } else if i == 9 {
        assert DiffersAt("LONGBLOB", "numeric", 0);
      } else if i == 10 {
        assert DiffersAt("LONGBLOB", "enum", 0);
      } else if i == 11 {
        assert DiffersAt("LONGBLOB", "float", 0);
      } else if i == 12 {
        assert DiffersAt("LONGBLOB", "real", 0);
      } else if i == 13 {
        assert DiffersAt("LONGBLOB", "text", 0);
      } else if i == 14 {
        assert DiffersAt("LONGBLOB", "timestamp", 0);
      } else if i == 15 {
        assert DiffersAt("LONGBLOB", "timestamp", 0);
      } else if i == 16 {
        assert DiffersAt("LONGBLOB", "varchar", 0);
        assert DiffersAt("LONGBLOB", "character", 0);
      } else {
        assert DiffersAt("LONGBLOB", "char", 0);
      }
    }
  }

  /** `LONGBLOB` is no keyword of the second half's alternatives before number 4. */
  lemma {:induction false} LongblobBlocksSecond4()
    ensures SecondBlockedBefore("LONGBLOB", 4)
  {
    forall i | 0 <= i < 4 ensures BlocksFrom("LONGBLOB", SecondKeywords(i), 0) {
      if i == 0 {
        assert DiffersAt("LONGBLOB", "time", 0);
      } else if i == 1 {
        assert DiffersAt("LONGBLOB", "decimal", 0);
        assert DiffersAt("LONGBLOB", "numeric", 0);
      } else if i == 2 {
        assert DiffersAt("LONGBLOB", "binary", 0);
      } else {
        assert DiffersAt("LONGBLOB", "blob", 0);
      }
    }
  }

  /** `MEDIUMBLOB` is no keyword of the first half of `type_identifier`. */
  lemma {:induction false} MediumblobPassesFirstHalf()
    ensures FirstBlockedBefore("MEDIUMBLOB", 18)
  {
    forall i | 0 <= i < 18 ensures BlocksFrom("MEDIUMBLOB", FirstKeywords(i), 0) {
      if i == 0 {
        assert DiffersAt("MEDIUMBLOB", "tinyint", 0);
      } else if i == 1 {
        assert DiffersAt("MEDIUMBLOB", "smallint", 0);
      } else if i == 2 {
        assert DiffersAt("MEDIUMBLOB", "integer", 0);
      } else if i == 3 {
        assert DiffersAt("MEDIUMBLOB", "int", 0);
      } else if i == 4 {
        assert DiffersAt("MEDIUMBLOB", "bigint", 0);
      } else if i == 5 {
        assert DiffersAt("MEDIUMBLOB", "boolean", 0);
        assert DiffersAt("MEDIUMBLOB", "bool", 0);
      } else if i == 6 {
        assert DiffersAt("MEDIUMBLOB", "datetime", 0);
      } else if i == 7 {
        assert DiffersAt("MEDIUMBLOB", "date", 0);
      } else if i == 8 {
        assert DiffersAt("MEDIUMBLOB", "double", 0);
      } else if i == 9 {
        assert DiffersAt("MEDIUMBLOB", "numeric", 0);
      } else if i == 10 {
        assert DiffersAt("MEDIUMBLOB", "enum", 0);
      } else if i == 11 {
        assert DiffersAt("MEDIUMBLOB", "float", 0);
      } else if i == 12 {
        assert DiffersAt("MEDIUMBLOB", "real", 0);
      } else if i == 13 {
        assert DiffersAt("MEDIUMBLOB", "text", 0);
      } else if i == 14 {
        assert DiffersAt("MEDIUMBLOB", "timestamp", 0);
      } else if i == 15 {
        assert DiffersAt("MEDIUMBLOB", "timestamp", 0);
      } else if i == 16 {
        assert DiffersAt("MEDIUMBLOB", "varchar", 0);
        assert DiffersAt("MEDIUMBLOB", "character", 0);
      } else {
        assert DiffersAt("MEDIUMBLOB", "char", 0);
      }
    }
  }

  /** `MEDIUMBLOB` is no keyword of the second half's alternatives before number 5. */
  lemma {:induction false} MediumblobBlocksSecond5()
    ensures SecondBlockedBefore("MEDIUMBLOB", 5)
  {
    forall i | 0 <= i < 5 ensures BlocksFrom("MEDIUMBLOB", SecondKeywords(i), 0) {
      if i == 0 {
        assert DiffersAt("MEDIUMBLOB", "time", 0);
      } else if i == 1 {
        assert DiffersAt("MEDIUMBLOB", "decimal", 0);
        assert DiffersAt("MEDIUMBLOB", "numeric", 0);
      } else if i == 2 {
        assert DiffersAt("MEDIUMBLOB", "binary", 0);
      } else if i == 3 {
        assert DiffersAt("MEDIUMBLOB", "blob", 0);
      } else {
        assert DiffersAt("MEDIUMBLOB", "longblob", 0);
      }
    }
  }

  /** `MEDIUMTEXT` is no keyword of the first half of `type_identifier`. */
  lemma {:induction false} MediumtextPassesFirstHalf()
    ensures FirstBlockedBefore("MEDIUMTEXT", 18)
  {
    forall i | 0 <= i < 18 ensures BlocksFrom("MEDIUMTEXT", FirstKeywords(i), 0) {
      if i == 0 {
        assert DiffersAt("MEDIUMTEXT", "tinyint", 0);
      } else if i == 1 {
        assert DiffersAt("MEDIUMTEXT", "smallint", 0);
      } else if i == 2 {
        assert DiffersAt("MEDIUMTEXT", "integer", 0);
      } else if i == 3 {
        assert DiffersAt("MEDIUMTEXT", "int", 0);
      } else if i == 4 {
        assert DiffersAt("MEDIUMTEXT", "bigint", 0);
      } else if i == 5 {
        assert DiffersAt("MEDIUMTEXT", "boolean", 0);
        assert DiffersAt("MEDIUMTEXT", "bool", 0);
      } else if i == 6 {
        assert DiffersAt("MEDIUMTEXT", "datetime", 0);
      } else if i == 7 {
        assert DiffersAt("MEDIUMTEXT", "date", 0);
      } else if i == 8 {
        assert DiffersAt("MEDIUMTEXT", "double", 0);
      } else if i == 9 {
        assert DiffersAt("MEDIUMTEXT", "numeric", 0);
      } else if i == 10 {
        assert DiffersAt("MEDIUMTEXT", "enum", 0);
      } else if i == 11 {
        assert DiffersAt("MEDIUMTEXT", "float", 0);
      } else if i == 12 {
        assert DiffersAt("MEDIUMTEXT", "real", 0);
      } else if i == 13 {
        assert DiffersAt("MEDIUMTEXT", "text", 0);
      } else if i == 14 {
        assert DiffersAt("MEDIUMTEXT", "timestamp", 0);
      } else if i == 15 {
        assert DiffersAt("MEDIUMTEXT", "timestamp", 0);
      } else if i == 16 {
        assert DiffersAt("MEDIUMTEXT", "varchar", 0);
        assert DiffersAt("MEDIUMTEXT", "character", 0);
      } else {
        assert DiffersAt("MEDIUMTEXT", "char", 0);
      }
    }
  }

  /** `MEDIUMTEXT` is no keyword of the second half's alternatives before number 6. */
  lemma {:induction false} MediumtextBlocksSecond6()
    ensures SecondBlockedBefore("MEDIUMTEXT", 6)
  {
    forall i | 0 <= i < 6 ensures BlocksFrom("MEDIUMTEXT", SecondKeywords(i), 0) {
      if i == 0 {
        assert DiffersAt("MEDIUMTEXT", "time", 0);
      } else if i == 1 {
        assert DiffersAt("MEDIUMTEXT", "decimal", 0);
        assert DiffersAt("MEDIUMTEXT", "numeric", 0);
      } else if i == 2 {
        assert DiffersAt("MEDIUMTEXT", "binary", 0);
      } else if i == 3 {
        assert DiffersAt("MEDIUMTEXT", "blob", 0);
      } else if i == 4 {
        assert DiffersAt("MEDIUMTEXT", "longblob", 0);
      } else {
        assert DiffersAt("MEDIUMTEXT", "mediumblob", 6);
      }
    }
  }

  /** `LONGTEXT` is no keyword of the first half of `type_identifier`. */
  lemma {:induction false} LongtextPassesFirstHalf()
    ensures FirstBlockedBefore("LONGTEXT", 18)
  {
    forall i | 0 <= i < 18 ensures BlocksFrom("LONGTEXT", FirstKeywords(i), 0) {
      if i == 0 {
        assert DiffersAt("LONGTEXT", "tinyint", 0);
      } else if i == 1 {
        assert DiffersAt("LONGTEXT", "smallint", 0);
      } else if i == 2 {
        assert DiffersAt("LONGTEXT", "integer", 0);
      } else if i == 3 {
        assert DiffersAt("LONGTEXT", "int", 0);
      } else if i == 4 {
        assert DiffersAt("LONGTEXT", "bigint", 0);
      } else if i == 5 {
        assert DiffersAt("LONGTEXT", "boolean", 0);
        assert DiffersAt("LONGTEXT", "bool", 0);
      } else if i == 6 {
        assert DiffersAt("LONGTEXT", "datetime", 0);
      } else if i == 7 {
        assert DiffersAt("LONGTEXT", "date", 0);
      } else if i == 8 {
        assert DiffersAt("LONGTEXT", "double", 0);
      } else if i == 9 {
        assert DiffersAt("LONGTEXT", "numeric", 0);
      } else if i == 10 {
        assert DiffersAt("LONGTEXT", "enum", 0);
      } else if i == 11 {
        assert DiffersAt("LONGTEXT", "float", 0);
      } else if i == 12 {
        assert DiffersAt("LONGTEXT", "real", 0);
      } else if i == 13 {
        assert DiffersAt("LONGTEXT", "text", 0);
      } else if i == 14 {
        assert DiffersAt("LONGTEXT", "timestamp", 0);
      } else if i == 15 {
        assert DiffersAt("LONGTEXT", "timestamp", 0);
      } else if i == 16 {
        assert DiffersAt("LONGTEXT", "varchar", 0);
        assert DiffersAt("LONGTEXT", "character", 0);
      } else {
        assert DiffersAt("LONGTEXT", "char", 0);
      }
    }
  }

  /** `LONGTEXT` is no keyword of the second half's alternatives before number 7. */
  lemma {:induction false} LongtextBlocksSecond7()
    ensures SecondBlockedBefore("LONGTEXT", 7)
  {
    forall i | 0 <= i < 7 ensures BlocksFrom("LONGTEXT", SecondKeywords(i), 0) {
      if i == 0 {
        assert DiffersAt("LONGTEXT", "time", 0);
      } else if i == 1 {
        assert DiffersAt("LONGTEXT", "decimal", 0);
        assert DiffersAt("LONGTEXT", "numeric", 0);
      } else if i == 2 {
        assert DiffersAt("LONGTEXT", "binary", 0);
      } else if i == 3 {
        assert DiffersAt("LONGTEXT", "blob", 0);
      } else if i == 4 {
        assert DiffersAt("LONGTEXT", "longblob", 4);
      } else if i == 5 {
        assert DiffersAt("LONGTEXT", "mediumblob", 0);
      } else {
        assert DiffersAt("LONGTEXT", "mediumtext", 0);
      }
    }
  }

  /** `TINYBLOB` is no keyword of the first half of `type_identifier`. */
  lemma {:induction false} TinyblobPassesFirstHalf()
    ensures FirstBlockedBefore("TINYBLOB", 18)
  {
    forall i | 0 <= i < 18 ensures BlocksFrom("TINYBLOB", FirstKeywords(i), 0) {
      if i == 0 {
        assert DiffersAt("TINYBLOB", "tinyint", 4);
      } else if i == 1 {
        assert DiffersAt("TINYBLOB", "smallint", 0);
      } else if i == 2 {
        assert DiffersAt("TINYBLOB", "integer", 0);
      } else if i == 3 {
        assert DiffersAt("TINYBLOB", "int", 0);
      } else if i == 4 {
        assert DiffersAt("TINYBLOB", "bigint", 0);
      } else if i == 5 {
        assert DiffersAt("TINYBLOB", "boolean", 0);
        assert DiffersAt("TINYBLOB", "bool", 0);
      } else if i == 6 {
        assert DiffersAt("TINYBLOB", "datetime", 0);
      } else if i == 7 {
        assert DiffersAt("TINYBLOB", "date", 0);
      } else if i == 8 {
        assert DiffersAt("TINYBLOB", "double", 0);
      } else if i == 9 {
        assert DiffersAt("TINYBLOB", "numeric", 0);
      } else if i == 10 {
        assert DiffersAt("TINYBLOB", "enum", 0);
      } else if i == 11 {
        assert DiffersAt("TINYBLOB", "float", 0);
      } else if i == 12 {
        assert DiffersAt("TINYBLOB", "real", 0);
      } else if i == 13 {
        assert DiffersAt("TINYBLOB", "text", 1);
      } else if i == 14 {
        assert DiffersAt("TINYBLOB", "timestamp", 2);
      } else if i == 15 {
        assert DiffersAt("TINYBLOB", "timestamp", 2);
      } else if i == 16 {
        assert DiffersAt("TINYBLOB", "varchar", 0);
        assert DiffersAt("TINYBLOB", "character", 0);
      } else {
        assert DiffersAt("TINYBLOB", "char", 0);
      }
    }
  }

  /** `TINYBLOB` is no keyword of the second half's alternatives before number 8. */
  lemma {:induction false} TinyblobBlocksSecond8()
    ensures SecondBlockedBefore("TINYBLOB", 8)
  {
    forall i | 0 <= i < 8 ensures BlocksFrom("TINYBLOB", SecondKeywords(i), 0) {
      if i == 0 {
        assert DiffersAt("TINYBLOB", "time", 2);
      } else if i == 1 {
        assert DiffersAt("TINYBLOB", "decimal", 0);
        assert DiffersAt("TINYBLOB", "numeric", 0);
      } else if i == 2 {
        assert DiffersAt("TINYBLOB", "binary", 0);
      } else if i == 3 {
        assert DiffersAt("TINYBLOB", "blob", 0);
      } else if i == 4 {
        assert DiffersAt("TINYBLOB", "longblob", 0);
      } else if i == 5 {
        assert DiffersAt("TINYBLOB", "mediumblob", 0);
      } else if i == 6 {
        assert DiffersAt("TINYBLOB", "mediumtext", 0);
      } else {
        assert DiffersAt("TINYBLOB", "longtext", 0);
      }
    }
  }

  /** `TINYTEXT` is no keyword of the first half of `type_identifier`. */
  lemma {:induction false} TinytextPassesFirstHalf()
    ensures FirstBlockedBefore("TINYTEXT", 18)
  {
    forall i | 0 <= i < 18 ensures BlocksFrom("TINYTEXT", FirstKeywords(i), 0) {
      if i == 0 {
        assert DiffersAt("TINYTEXT", "tinyint", 4);
      } else if i == 1 {
        assert DiffersAt("TINYTEXT", "smallint", 0);
      } else if i == 2 {
        assert DiffersAt("TINYTEXT", "integer", 0);
      } else if i == 3 {
        assert DiffersAt("TINYTEXT", "int", 0);
      } else if i == 4 {
        assert DiffersAt("TINYTEXT", "bigint", 0);
      } else if i == 5 {
        assert DiffersAt("TINYTEXT", "boolean", 0);
        assert DiffersAt("TINYTEXT", "bool", 0);
      } else if i == 6 {
        assert DiffersAt("TINYTEXT", "datetime", 0);
      } else if i == 7 {
        assert DiffersAt("TINYTEXT", "date", 0);
      } else if i == 8 {
        assert DiffersAt("TINYTEXT", "double", 0);
      } else if i == 9 {
        assert DiffersAt("TINYTEXT", "numeric", 0);
      } else if i == 10 {
        assert DiffersAt("TINYTEXT", "enum", 0);
      } else if i == 11 {
        assert DiffersAt("TINYTEXT", "float", 0);
      } else if i == 12 {
        assert DiffersAt("TINYTEXT", "real", 0);
      } else if i == 13 {
        assert DiffersAt("TINYTEXT", "text", 1);
      } else if i == 14 {
        assert DiffersAt("TINYTEXT", "timestamp", 2);
      } else if i == 15 {
        assert DiffersAt("TINYTEXT", "timestamp", 2);
      } else if i == 16 {
        assert DiffersAt("TINYTEXT", "varchar", 0);
        assert DiffersAt("TINYTEXT", "character", 0);
      } else {
        assert DiffersAt("TINYTEXT", "char", 0);
      }
    }
  }

  /** `TINYTEXT` is no keyword of the second half's alternatives before number 9. */
  lemma {:induction false} TinytextBlocksSecond9()
    ensures SecondBlockedBefore("TINYTEXT", 9)
  {
    forall i | 0 <= i < 9 ensures BlocksFrom("TINYTEXT", SecondKeywords(i), 0) {
      if i == 0 {
        assert DiffersAt("TINYTEXT", "time", 2);
      } else if i == 1 {
        assert DiffersAt("TINYTEXT", "decimal", 0);
        assert DiffersAt("TINYTEXT", "numeric", 0);
      } else if i == 2 {
        assert DiffersAt("TINYTEXT", "binary", 0);
      } else if i == 3 {
        assert DiffersAt("TINYTEXT", "blob", 0);
      } else if i == 4 {
        assert DiffersAt("TINYTEXT", "longblob", 0);
      } else if i == 5 {
        assert DiffersAt("TINYTEXT", "mediumblob", 0);
      } else if i == 6 {
        assert DiffersAt("TINYTEXT", "mediumtext", 0);
      } else if i == 7 {
        assert DiffersAt("TINYTEXT", "longtext", 0);
      } else {
        assert DiffersAt("TINYTEXT", "tinyblob", 4);
      }
    }
  }

  /** `VARBINARY` is no keyword of the first half of `type_identifier`. */
  lemma {:induction false} VarbinaryPassesFirstHalf()
    ensures FirstBlockedBefore("VARBINARY", 18)
  {
    forall i | 0 <= i < 18 ensures BlocksFrom("VARBINARY", FirstKeywords(i), 0) {
      if i == 0 {
        assert DiffersAt("VARBINARY", "tinyint", 0);
      } else if i == 1 {
        assert DiffersAt("VARBINARY", "smallint", 0);
      } else if i == 2 {
        assert DiffersAt("VARBINARY", "integer", 0);
      } else if i == 3 {
        assert DiffersAt("VARBINARY", "int", 0);
      } else if i == 4 {
        assert DiffersAt("VARBINARY", "bigint", 0);
      } else if i == 5 {
        assert DiffersAt("VARBINARY", "boolean", 0);
        assert DiffersAt("VARBINARY", "bool", 0);
      } else if i == 6 {
        assert DiffersAt("VARBINARY", "datetime", 0);
      } else if i == 7 {
        assert DiffersAt("VARBINARY", "date", 0);
      } else if i == 8 {
        assert DiffersAt("VARBINARY", "double", 0);
      } else if i == 9 {
        assert DiffersAt("VARBINARY", "numeric", 0);
      } else if i == 10 {
        assert DiffersAt("VARBINARY", "enum", 0);
      } else if i == 11 {
        assert DiffersAt("VARBINARY", "float", 0);
      } else if i == 12 {
        assert DiffersAt("VARBINARY", "real", 0);
      } else if i == 13 {
        assert DiffersAt("VARBINARY", "text", 0);
      } else if i == 14 {
        assert DiffersAt("VARBINARY", "timestamp", 0);
      } else if i == 15 {
        assert DiffersAt("VARBINARY", "timestamp", 0);
      } else if i == 16 {
        assert DiffersAt("VARBINARY", "varchar", 3);
        assert DiffersAt("VARBINARY", "character", 0);
      } else {
        assert DiffersAt("VARBINARY", "char", 0);
      }
    }
  }

  /** `VARBINARY` is no keyword of the second half's alternatives before number 10. */
  lemma {:induction false} VarbinaryBlocksSecond10()
    ensures SecondBlockedBefore("VARBINARY", 10)
  {
    forall i | 0 <= i < 10 ensures BlocksFrom("VARBINARY", SecondKeywords(i), 0) {
      if i == 0 {
        assert DiffersAt("VARBINARY", "time", 0);
      } else if i == 1 {
        assert DiffersAt("VARBINARY", "decimal", 0);
        assert DiffersAt("VARBINARY", "numeric", 0);
      } else if i == 2 {
        assert DiffersAt("VARBINARY", "binary", 0);
      } else if i == 3 {
        assert DiffersAt("VARBINARY", "blob", 0);
      } else if i == 4 {
        assert DiffersAt("VARBINARY", "longblob", 0);
      } else if i == 5 {
        assert DiffersAt("VARBINARY", "mediumblob", 0);
      } else if i == 6 {
        assert DiffersAt("VARBINARY", "mediumtext", 0);
      } else if i == 7 {
        assert DiffersAt("VARBINARY", "longtext", 0);
      } else if i == 8 {
        assert DiffersAt("VARBINARY", "tinyblob", 0);
      } else {
        assert DiffersAt("VARBINARY", "tinytext", 0);
      }
    }
  }

  /** `BYTEA` is no keyword of the first half of `type_identifier`. */
  lemma {:induction false} ByteaPassesFirstHalf()
    ensures FirstBlockedBefore("BYTEA", 18)
  {
    forall i | 0 <= i < 18 ensures BlocksFrom("BYTEA", FirstKeywords(i), 0) {
      if i == 0 {
        assert DiffersAt("BYTEA", "tinyint", 0);
      } else if i == 1 {
        assert DiffersAt("BYTEA", "smallint", 0);
      } else if i == 2 {
        assert DiffersAt("BYTEA", "integer", 0);
      } else if i == 3 {
        assert DiffersAt("BYTEA", "int", 0);
      } else if i == 4 {
        assert DiffersAt("BYTEA", "bigint", 1);
      } else if i == 5 {
        assert DiffersAt("BYTEA", "boolean", 1);
        assert DiffersAt("BYTEA", "bool", 1);
      } else if i == 6 {
        assert DiffersAt("BYTEA", "datetime", 0);
      } else if i == 7 {
        assert DiffersAt("BYTEA", "date", 0);
      } else if i == 8 {
        assert DiffersAt("BYTEA", "double", 0);
      } else if i == 9 {
        assert DiffersAt("BYTEA", "numeric", 0);
      } else if i == 10 {
        assert DiffersAt("BYTEA", "enum", 0);
      } else if i == 11 {
        assert DiffersAt("BYTEA", "float", 0);
      } else if i == 12 {
        assert DiffersAt("BYTEA", "real", 0);
      } else if i == 13 {
        assert DiffersAt("BYTEA", "text", 0);
      } else if i == 14 {
        assert DiffersAt("BYTEA", "timestamp", 0);
      } else if i == 15 {
        assert DiffersAt("BYTEA", "timestamp", 0);
      } else if i == 16 {
        assert DiffersAt("BYTEA", "varchar", 0);
        assert DiffersAt("BYTEA", "character", 0);
      } else {
        assert DiffersAt("BYTEA", "char", 0);
      }
    }
  }

  /** `BYTEA` is no keyword of the second half's alternatives before number 11. */
  lemma {:induction false} ByteaBlocksSecond11()
    ensures SecondBlockedBefore("BYTEA", 11)
  {
    forall i | 0 <= i < 11 ensures BlocksFrom("BYTEA", SecondKeywords(i), 0) {
      if i == 0 {
        assert DiffersAt("BYTEA", "time", 0);
      } else if i == 1 {
        assert DiffersAt("BYTEA", "decimal", 0);
        assert DiffersAt("BYTEA", "numeric", 0);
      } else if i == 2 {
        assert DiffersAt("BYTEA", "binary", 1);
      } else if i == 3 {
        assert DiffersAt("BYTEA", "blob", 1);
      } else if i == 4 {
        assert DiffersAt("BYTEA", "longblob", 0);
      } else if i == 5 {
        assert DiffersAt("BYTEA", "mediumblob", 0);
      } else if i == 6 {
        assert DiffersAt("BYTEA", "mediumtext", 0);
      } else if i == 7 {
        assert DiffersAt("BYTEA", "longtext", 0);
      } else if i == 8 {
        assert DiffersAt("BYTEA", "tinyblob", 0);
      } else if i == 9 {
        assert DiffersAt("BYTEA", "tinytext", 0);
      } else {
        assert DiffersAt("BYTEA", "varbinary", 0);
      }
    }
  }

  /** `MACADDR` is no keyword of the first half of `type_identifier`. */
  lemma {:induction false} MacaddrPassesFirstHalf()
    ensures FirstBlockedBefore("MACADDR", 18)
  {
    forall i | 0 <= i < 18 ensures BlocksFrom("MACADDR", FirstKeywords(i), 0) {
      if i == 0 {
        assert DiffersAt("MACADDR", "tinyint", 0);
      } else if i == 1 {
        assert DiffersAt("MACADDR", "smallint", 0);
      } else if i == 2 {
        assert DiffersAt("MACADDR", "integer", 0);
      } else if i == 3 {
        assert DiffersAt("MACADDR", "int", 0);
      } else if i == 4 {
        assert DiffersAt("MACADDR", "bigint", 0);
      } else if i == 5 {
        assert DiffersAt("MACADDR", "boolean", 0);
        assert DiffersAt("MACADDR", "bool", 0);
      } else if i == 6 {
        assert DiffersAt("MACADDR", "datetime", 0);
      } else if i == 7 {
        assert DiffersAt("MACADDR", "date", 0);
      } else if i == 8 {
        assert DiffersAt("MACADDR", "double", 0);
      } else if i == 9 {
        assert DiffersAt("MACADDR", "numeric", 0);
      } else if i == 10 {
        assert DiffersAt("MACADDR", "enum", 0);
      } else if i == 11 {
        assert DiffersAt("MACADDR", "float", 0);
      } else if i == 12 {
        assert DiffersAt("MACADDR", "real", 0);
      } else if i == 13 {
        assert DiffersAt("MACADDR", "text", 0);
      } else if i == 14 {
        assert DiffersAt("MACADDR", "timestamp", 0);
      } else if i == 15 {
        assert DiffersAt("MACADDR", "timestamp", 0);
      } else if i == 16 {
        assert DiffersAt("MACADDR", "varchar", 0);
        assert DiffersAt("MACADDR", "character", 0);
      } else {
        assert DiffersAt("MACADDR", "char", 0);
      }
    }
  }

  /** `MACADDR` is no keyword of the second half's alternatives before number 12. */
  lemma {:induction false} MacaddrBlocksSecond12()
    ensures SecondBlockedBefore("MACADDR", 12)
  {
    forall i | 0 <= i < 12 ensures BlocksFrom("MACADDR", SecondKeywords(i), 0) {
      if i == 0 {
        assert DiffersAt("MACADDR", "time", 0);
      } else if i == 1 {
        assert DiffersAt("MACADDR", "decimal", 0);
        assert DiffersAt("MACADDR", "numeric", 0);
      } else if i == 2 {
        assert DiffersAt("MACADDR", "binary", 0);
      } else if i == 3 {
        assert DiffersAt("MACADDR", "blob", 0);
      } else if i == 4 {
        assert DiffersAt("MACADDR", "longblob", 0);
      } else if i == 5 {
        assert DiffersAt("MACADDR", "mediumblob", 1);
      } else if i == 6 {
        assert DiffersAt("MACADDR", "mediumtext", 1);
      } else if i == 7 {
        assert DiffersAt("MACADDR", "longtext", 0);
      } else if i == 8 {
        assert DiffersAt("MACADDR", "tinyblob", 0);
      } else if i == 9 {
        assert DiffersAt("MACADDR", "tinytext", 0);
      } else if i == 10 {
        assert DiffersAt("MACADDR", "varbinary", 0);
      } else {
        assert DiffersAt("MACADDR", "bytea", 0);
      }
    }
  }

  /** `INET` is no keyword of the first half of `type_identifier`. */
  lemma {:induction false} InetPassesFirstHalf()
    ensures FirstBlockedBefore("INET", 18)
  {
    forall i | 0 <= i < 18 ensures BlocksFrom("INET", FirstKeywords(i), 0) {
      if i == 0 {
        assert DiffersAt("INET", "tinyint", 0);
      } else if i == 1 {
        assert DiffersAt("INET", "smallint", 0);
      } else if i == 2 {
        assert DiffersAt("INET", "integer", 2);
      } else if i == 3 {
        assert DiffersAt("INET", "int", 2);
      } else if i == 4 {
        assert DiffersAt("INET", "bigint", 0);
      } else if i == 5 {
        assert DiffersAt("INET", "boolean", 0);
        assert DiffersAt("INET", "bool", 0);
      } else if i == 6 {
        assert DiffersAt("INET", "datetime", 0);
      } else if i == 7 {
        assert DiffersAt("INET", "date", 0);
      } else if i == 8 {
        assert DiffersAt("INET", "double", 0);
      } else if i == 9 {
        assert DiffersAt("INET", "numeric", 0);
      } else if i == 10 {
        assert DiffersAt("INET", "enum", 0);
      } else if i == 11 {
        assert DiffersAt("INET", "float", 0);
      } else if i == 12 {
        assert DiffersAt("INET", "real", 0);
      } else if i == 13 {
        assert DiffersAt("INET", "text", 0);
      } else if i == 14 {
        assert DiffersAt("INET", "timestamp", 0);
      } else if i == 15 {
        assert DiffersAt("INET", "timestamp", 0);
      } else if i == 16 {
        assert DiffersAt("INET", "varchar", 0);
        assert DiffersAt("INET", "character", 0);
      } else {
        assert DiffersAt("INET", "char", 0);
      }
    }
  }

  /** `INET` is no keyword of the second half's alternatives before number 13. */
  lemma {:induction false} InetBlocksSecond13()
    ensures SecondBlockedBefore("INET", 13)
  {
    forall i | 0 <= i < 13 ensures BlocksFrom("INET", SecondKeywords(i), 0) {
      if i == 0 {
        assert DiffersAt("INET", "time", 0);
      } else if i == 1 {
        assert DiffersAt("INET", "decimal", 0);
        assert DiffersAt("INET", "numeric", 0);
      } else if i == 2 {
        assert DiffersAt("INET", "binary", 0);
      } else if i == 3 {
        assert DiffersAt("INET", "blob", 0);
      } else if i == 4 {
        assert DiffersAt("INET", "longblob", 0);
      } else if i == 5 {
        assert DiffersAt("INET", "mediumblob", 0);
      } else if i == 6 {
        assert DiffersAt("INET", "mediumtext", 0);
      } else if i == 7 {
        assert DiffersAt("INET", "longtext", 0);
      } else if i == 8 {
        assert DiffersAt("INET", "tinyblob", 0);
      } else if i == 9 {
        assert DiffersAt("INET", "tinytext", 0);
      } else if i == 10 {
        assert DiffersAt("INET", "varbinary", 0);
      } else if i == 11 {
        assert DiffersAt("INET", "bytea", 0);
      } else {
        assert DiffersAt("INET", "macaddr", 0);
      }
    }
  }

  /** `UUID` is no keyword of the first half of `type_identifier`. */
  lemma {:induction false} UuidPassesFirstHalf()
    ensures FirstBlockedBefore("UUID", 18)
  {
    forall i | 0 <= i < 18 ensures BlocksFrom("UUID", FirstKeywords(i), 0) {
      if i == 0 {
        assert DiffersAt("UUID", "tinyint", 0);
      } else if i == 1 {
        assert DiffersAt("UUID", "smallint", 0);
      } else if i == 2 {
        assert DiffersAt("UUID", "integer", 0);
      } else if i == 3 {
        assert DiffersAt("UUID", "int", 0);
      } else if i == 4 {
        assert DiffersAt("UUID", "bigint", 0);
      } else if i == 5 {
        assert DiffersAt("UUID", "boolean", 0);
        assert DiffersAt("UUID", "bool", 0);
      } else if i == 6 {
        assert DiffersAt("UUID", "datetime", 0);
      } else if i == 7 {
        assert DiffersAt("UUID", "date", 0);
      } else if i == 8 {
        assert DiffersAt("UUID", "double", 0);
      } else if i == 9 {
        assert DiffersAt("UUID", "numeric", 0);
      } else if i == 10 {
        assert DiffersAt("UUID", "enum", 0);
      } else if i == 11 {
        assert DiffersAt("UUID", "float", 0);
      } else if i == 12 {
        assert DiffersAt("UUID", "real", 0);
      } else if i == 13 {
        assert DiffersAt("UUID", "text", 0);
      } else if i == 14 {
        assert DiffersAt("UUID", "timestamp", 0);
      } else if i == 15 {
        assert DiffersAt("UUID", "timestamp", 0);
      } else if i == 16 {
        assert DiffersAt("UUID", "varchar", 0);
        assert DiffersAt("UUID", "character", 0);
      } else {
        assert DiffersAt("UUID", "char", 0);
      }
    }
  }

  /** `UUID` is no keyword of the second half's alternatives before number 14. */
  lemma {:induction false} UuidBlocksSecond14()
    ensures SecondBlockedBefore("UUID", 14)
  {
    forall i | 0 <= i < 14 ensures BlocksFrom("UUID", SecondKeywords(i), 0) {
      if i == 0 {
        assert DiffersAt("UUID", "time", 0);
      } else if i == 1 {
        assert DiffersAt("UUID", "decimal", 0);
        assert DiffersAt("UUID", "numeric", 0);
      } else if i == 2 {
        assert DiffersAt("UUID", "binary", 0);
      } else if i == 3 {
        assert DiffersAt("UUID", "blob", 0);
      } else if i == 4 {
        assert DiffersAt("UUID", "longblob", 0);
      } else if i == 5 {
        assert DiffersAt("UUID", "mediumblob", 0);
      } else if i == 6 {
        assert DiffersAt("UUID", "mediumtext", 0);
      } else if i == 7 {
        assert DiffersAt("UUID", "longtext", 0);
      } else if i == 8 {
        assert DiffersAt("UUID", "tinyblob", 0);
      } else if i == 9 {
        assert DiffersAt("UUID", "tinytext", 0);
      } else if i == 10 {
        assert DiffersAt("UUID", "varbinary", 0);
      } else if i == 11 {
        assert DiffersAt("UUID", "bytea", 0);
      } else if i == 12 {
        assert DiffersAt("UUID", "macaddr", 0);
      } else {
        assert DiffersAt("UUID", "inet", 0);
      }
    }
  }

  /** `JSONB` is no keyword of the first half of `type_identifier`. */
  lemma {:induction false} JsonbPassesFirstHalf()
    ensures FirstBlockedBefore("JSONB", 18)
  {
    forall i | 0 <= i < 18 ensures BlocksFrom("JSONB", FirstKeywords(i), 0) {
      if i == 0 {
        assert DiffersAt("JSONB", "tinyint", 0);
      } else if i == 1 {
        assert DiffersAt("JSONB", "smallint", 0);
      } else if i == 2 {
        assert DiffersAt("JSONB", "integer", 0);
      } else if i == 3 {
        assert DiffersAt("JSONB", "int", 0);
      } else if i == 4 {
        assert DiffersAt("JSONB", "bigint", 0);
      } else if i == 5 {
        assert DiffersAt("JSONB", "boolean", 0);
        assert DiffersAt("JSONB", "bool", 0);
      } else if i == 6 {
        assert DiffersAt("JSONB", "datetime", 0);
      } else if i == 7 {
        assert DiffersAt("JSONB", "date", 0);
      } else if i == 8 {
        assert DiffersAt("JSONB", "double", 0);
      } else if i == 9 {
        assert DiffersAt("JSONB", "numeric", 0);
      } else if i == 10 {
        assert DiffersAt("JSONB", "enum", 0);
      } else if i == 11 {
        assert DiffersAt("JSONB", "float", 0);
      } else if i == 12 {
        assert DiffersAt("JSONB", "real", 0);
      } else if i == 13 {
        assert DiffersAt("JSONB", "text", 0);
      } else if i == 14 {
        assert DiffersAt("JSONB", "timestamp", 0);
      } else if i == 15 {
        assert DiffersAt("JSONB", "timestamp", 0);
      } else if i == 16 {
        assert DiffersAt("JSONB", "varchar", 0);
        assert DiffersAt("JSONB", "character", 0);
      } else {
        assert DiffersAt("JSONB", "char", 0);
      }
    }
  }

  /** `JSONB` is no keyword of the second half's alternatives before number 15. */
  lemma {:induction false} JsonbBlocksSecond15()
    ensures SecondBlockedBefore("JSONB", 15)
  {
    forall i | 0 <= i < 15 ensures BlocksFrom("JSONB", SecondKeywords(i), 0) {
      if i == 0 {
        assert DiffersAt("JSONB", "time", 0);
      } else if i == 1 {
        assert DiffersAt("JSONB", "decimal", 0);
        assert DiffersAt("JSONB", "numeric", 0);
      } else if i == 2 {
        assert DiffersAt("JSONB", "binary", 0);
      } else if i == 3 {
        assert DiffersAt("JSONB", "blob", 0);
      } else if i == 4 {
        assert DiffersAt("JSONB", "longblob", 0);
      } else if i == 5 {
        assert DiffersAt("JSONB", "mediumblob", 0);
      } else if i == 6 {
        assert DiffersAt("JSONB", "mediumtext", 0);
      } else if i == 7 {
        assert DiffersAt("JSONB", "longtext", 0);
      } else if i == 8 {
        assert DiffersAt("JSONB", "tinyblob", 0);
      } else if i == 9 {
        assert DiffersAt("JSONB", "tinytext", 0);
      } else if i == 10 {
        assert DiffersAt("JSONB", "varbinary", 0);
      } else if i == 11 {
        assert DiffersAt("JSONB", "bytea", 0);
      } else if i == 12 {
        assert DiffersAt("JSONB", "macaddr", 0);
      } else if i == 13 {
        assert DiffersAt("JSONB", "inet", 0);
      } else {
        assert DiffersAt("JSONB", "uuid", 0);
      }
    }
  }

  /** `JSON` is no keyword of the first half of `type_identifier`. */
  lemma {:induction false} JsonPassesFirstHalf()
    ensures FirstBlockedBefore("JSON", 18)
  {
    forall i | 0 <= i < 18 ensures BlocksFrom("JSON", FirstKeywords(i), 0) {
      if i == 0 {
        assert DiffersAt("JSON", "tinyint", 0);
      } else if i == 1 {
        assert DiffersAt("JSON", "smallint", 0);
      } else if i == 2 {
        assert DiffersAt("JSON", "integer", 0);
      } else if i == 3 {
        assert DiffersAt("JSON", "int", 0);
      } else if i == 4 {
        assert DiffersAt("JSON", "bigint", 0);
      } else if i == 5 {
        assert DiffersAt("JSON", "boolean", 0);
        assert DiffersAt("JSON", "bool", 0);
      } else if i == 6 {
        assert DiffersAt("JSON", "datetime", 0);
      } else if i == 7 {
        assert DiffersAt("JSON", "date", 0);
      } else if i == 8 {
        assert DiffersAt("JSON", "double", 0);
      } else if i == 9 {
        assert DiffersAt("JSON", "numeric", 0);
      } else if i == 10 {
        assert DiffersAt("JSON", "enum", 0);
      } else if i == 11 {
        assert DiffersAt("JSON", "float", 0);
      } else if i == 12 {
        assert DiffersAt("JSON", "real", 0);
      } else if i == 13 {
        assert DiffersAt("JSON", "text", 0);
      } else if i == 14 {
        assert DiffersAt("JSON", "timestamp", 0);
      } else if i == 15 {
        assert DiffersAt("JSON", "timestamp", 0);
      } else if i == 16 {
        assert DiffersAt("JSON", "varchar", 0);
        assert DiffersAt("JSON", "character", 0);
      } else {
        assert DiffersAt("JSON", "char", 0);
      }
    }
  }

  /** `JSON` is no keyword of the second half's alternatives before number 16. */
  lemma {:induction false} JsonBlocksSecond16()
    ensures SecondBlockedBefore("JSON", 16)
  {
    forall i | 0 <= i < 16 ensures BlocksFrom("JSON", SecondKeywords(i), 0) {
      if i == 0 {
        assert DiffersAt("JSON", "time", 0);
      } else if i == 1 {
        assert DiffersAt("JSON", "decimal", 0);
        assert DiffersAt("JSON", "numeric", 0);
      } else if i == 2 {
        assert DiffersAt("JSON", "binary", 0);
      } else if i == 3 {
        assert DiffersAt("JSON", "blob", 0);
      } else if i == 4 {
        assert DiffersAt("JSON", "longblob", 0);
      } else if i == 5 {
        assert DiffersAt("JSON", "mediumblob", 0);
      } else if i == 6 {
        assert DiffersAt("JSON", "mediumtext", 0);
      } else if i == 7 {
        assert DiffersAt("JSON", "longtext", 0);
      } else if i == 8 {
        assert DiffersAt("JSON", "tinyblob", 0);
      } else if i == 9 {
        assert DiffersAt("JSON", "tinytext", 0);
      } else if i == 10 {
        assert DiffersAt("JSON", "varbinary", 0);
      } else if i == 11 {
        assert DiffersAt("JSON", "bytea", 0);
      } else if i == 12 {
        assert DiffersAt("JSON", "macaddr", 0);
      } else if i == 13 {
        assert DiffersAt("JSON", "inet", 0);
      } else if i == 14 {
        assert DiffersAt("JSON", "uuid", 0);
      } else {
        // each keyword runs on past the head word with a letter
      }
    }
  }

  /** `SERIAL` is no keyword of the first half of `type_identifier`. */
  lemma {:induction false} SerialPassesFirstHalf()
    ensures FirstBlockedBefore("SERIAL", 18)
  {
    forall i | 0 <= i < 18 ensures BlocksFrom("SERIAL", FirstKeywords(i), 0) {
      if i == 0 {
        assert DiffersAt("SERIAL", "tinyint", 0);
      } else if i == 1 {
        assert DiffersAt("SERIAL", "smallint", 1);
      } else if i == 2 {
        assert DiffersAt("SERIAL", "integer", 0);
      } else if i == 3 {
        assert DiffersAt("SERIAL", "int", 0);
      } else if i == 4 {
        assert DiffersAt("SERIAL", "bigint", 0);
      } else if i == 5 {
        assert DiffersAt("SERIAL", "boolean", 0);
        assert DiffersAt("SERIAL", "bool", 0);
      } else if i == 6 {
        assert DiffersAt("SERIAL", "datetime", 0);
      } else if i == 7 {
        assert DiffersAt("SERIAL", "date", 0);
      } else if i == 8 {
        assert DiffersAt("SERIAL", "double", 0);
      } else if i == 9 {
        assert DiffersAt("SERIAL", "numeric", 0);
      } else if i == 10 {
        assert DiffersAt("SERIAL", "enum", 0);
      } else if i == 11 {
        assert DiffersAt("SERIAL", "float", 0);
      } else if i == 12 {
        assert DiffersAt("SERIAL", "real", 0);
      } else if i == 13 {
        assert DiffersAt("SERIAL", "text", 0);
      } else if i == 14 {
        assert DiffersAt("SERIAL", "timestamp", 0);
      } else if i == 15 {
        assert DiffersAt("SERIAL", "timestamp", 0);
      } else if i == 16 {
        assert DiffersAt("SERIAL", "varchar", 0);
        assert DiffersAt("SERIAL", "character", 0);
      } else {
        assert DiffersAt("SERIAL", "char", 0);
      }
    }
  }

  /** `SERIAL` is no keyword of the second half's alternatives before number 19. */
  lemma {:induction false} SerialBlocksSecond19()
    ensures SecondBlockedBefore("SERIAL", 19)
  {
    forall i | 0 <= i < 19 ensures BlocksFrom("SERIAL", SecondKeywords(i), 0) {
      if i == 0 {
        assert DiffersAt("SERIAL", "time", 0);
      } else if i == 1 {
        assert DiffersAt("SERIAL", "decimal", 0);
        assert DiffersAt("SERIAL", "numeric", 0);
      } else if i == 2 {
        assert DiffersAt("SERIAL", "binary", 0);
      } else if i == 3 {
        assert DiffersAt("SERIAL", "blob", 0);
      } else if i == 4 {
        assert DiffersAt("SERIAL", "longblob", 0);
      } else if i == 5 {
        assert DiffersAt("SERIAL", "mediumblob", 0);
      } else if i == 6 {
        assert DiffersAt("SERIAL", "mediumtext", 0);
      } else if i == 7 {
        assert DiffersAt("SERIAL", "longtext", 0);
      } else if i == 8 {
        assert DiffersAt("SERIAL", "tinyblob", 0);
      } else if i == 9 {
        assert DiffersAt("SERIAL", "tinytext", 0);
      } else if i == 10 {
        assert DiffersAt("SERIAL", "varbinary", 0);
      } else if i == 11 {
        assert DiffersAt("SERIAL", "bytea", 0);
      } else if i == 12 {
        assert DiffersAt("SERIAL", "macaddr", 0);
      } else if i == 13 {
        assert DiffersAt("SERIAL", "inet", 0);
      } else if i == 14 {
        assert DiffersAt("SERIAL", "uuid", 0);
      } else if i == 15 {
        assert DiffersAt("SERIAL", "jsonb", 0);
      } else if i == 16 {
        assert DiffersAt("SERIAL", "json", 0);
      } else if i == 17 {
        assert DiffersAt("SERIAL", "varbit", 0);
        assert DiffersAt("SERIAL", "bit", 0);
      } else {
        assert DiffersAt("SERIAL", "bit", 0);
      }
    }
  }

  /** `BIGSERIAL` is no keyword of the first half of `type_identifier`. */
  lemma {:induction false} BigserialPassesFirstHalf()
    ensures FirstBlockedBefore("BIGSERIAL", 18)
  {
    forall i | 0 <= i < 18 ensures BlocksFrom("BIGSERIAL", FirstKeywords(i), 0) {
      if i == 0 {
        assert DiffersAt("BIGSERIAL", "tinyint", 0);
      } else if i == 1 {
        assert DiffersAt("BIGSERIAL", "smallint", 0);
      } else if i == 2 {
        assert DiffersAt("BIGSERIAL", "integer", 0);
      } else if i == 3 {
        assert DiffersAt("BIGSERIAL", "int", 0);
      } else if i == 4 {
        assert DiffersAt("BIGSERIAL", "bigint", 3);
      } else if i == 5 {
        assert DiffersAt("BIGSERIAL", "boolean", 1);
        assert DiffersAt("BIGSERIAL", "bool", 1);
      } else if i == 6 {
        assert DiffersAt("BIGSERIAL", "datetime", 0);
      } else if i == 7 {
        assert DiffersAt("BIGSERIAL", "date", 0);
      } else if i == 8 {
        assert DiffersAt("BIGSERIAL", "double", 0);
      } else if i == 9 {
        assert DiffersAt("BIGSERIAL", "numeric", 0);
      } else if i == 10 {
        assert DiffersAt("BIGSERIAL", "enum", 0);
      } else if i == 11 {
        assert DiffersAt("BIGSERIAL", "float", 0);
      } else if i == 12 {
        assert DiffersAt("BIGSERIAL", "real", 0);
      } else if i == 13 {
        assert DiffersAt("BIGSERIAL", "text", 0);
      } else if i == 14 {
        assert DiffersAt("BIGSERIAL", "timestamp", 0);
      } else if i == 15 {
        assert DiffersAt("BIGSERIAL", "timestamp", 0);
      } else if i == 16 {
        assert DiffersAt("BIGSERIAL", "varchar", 0);
        assert DiffersAt("BIGSERIAL", "character", 0);
      } else {
        assert DiffersAt("BIGSERIAL", "char", 0);
      }
    }
  }

  /** `BIGSERIAL` is no keyword of the second half's alternatives before number 20. */
  lemma {:induction false} BigserialBlocksSecond20()
    ensures SecondBlockedBefore("BIGSERIAL", 20)
  {
    forall i | 0 <= i < 20 ensures BlocksFrom("BIGSERIAL", SecondKeywords(i), 0) {
      if i == 0 {
        assert DiffersAt("BIGSERIAL", "time", 0);
      } else if i == 1 {
        assert DiffersAt("BIGSERIAL", "decimal", 0);
        assert DiffersAt("BIGSERIAL", "numeric", 0);
      } else if i == 2 {
        assert DiffersAt("BIGSERIAL", "binary", 2);
      } else if i == 3 {
        assert DiffersAt("BIGSERIAL", "blob", 1);
      } else if i == 4 {
        assert DiffersAt("BIGSERIAL", "longblob", 0);
      } else if i == 5 {
        assert DiffersAt("BIGSERIAL", "mediumblob", 0);
      } else if i == 6 {
        assert DiffersAt("BIGSERIAL", "mediumtext", 0);
      } else if i == 7 {
        assert DiffersAt("BIGSERIAL", "longtext", 0);
      } else if i == 8 {
        assert DiffersAt("BIGSERIAL", "tinyblob", 0);
      } else if i == 9 {
        assert DiffersAt("BIGSERIAL", "tinytext", 0);
      } else if i == 10 {
        assert DiffersAt("BIGSERIAL", "varbinary", 0);
      } else if i == 11 {
        assert DiffersAt("BIGSERIAL", "bytea", 1);
      } else if i == 12 {
        assert DiffersAt("BIGSERIAL", "macaddr", 0);
      } else if i == 13 {
        assert DiffersAt("BIGSERIAL", "inet", 0);
      } else if i == 14 {
        assert DiffersAt("BIGSERIAL", "uuid", 0);
      } else if i == 15 {
        assert DiffersAt("BIGSERIAL", "jsonb", 0);
      } else if i == 16 {
        assert DiffersAt("BIGSERIAL", "json", 0);
      } else if i == 17 {
        assert DiffersAt("BIGSERIAL", "varbit", 0);
        assert DiffersAt("BIGSERIAL", "bit", 2);
      } else if i == 18 {
        assert DiffersAt("BIGSERIAL", "bit", 2);
      } else {
        assert DiffersAt("BIGSERIAL", "serial", 0);
      }
    }
  }

  /** `VARBIT` is no keyword of the first half of `type_identifier`. */
  lemma {:induction false} VarbitPassesFirstHalf()
    ensures FirstBlockedBefore("VARBIT", 18)
  {
    forall i | 0 <= i < 18 ensures BlocksFrom("VARBIT", FirstKeywords(i), 0) {
      if i == 0 {
        assert DiffersAt("VARBIT", "tinyint", 0);
      } else if i == 1 {
        assert DiffersAt("VARBIT", "smallint", 0);
      } else if i == 2 {
        assert DiffersAt("VARBIT", "integer", 0);
      } else if i == 3 {
        assert DiffersAt("VARBIT", "int", 0);
      } else if i == 4 {
        assert DiffersAt("VARBIT", "bigint", 0);
      } else if i == 5 {
        assert DiffersAt("VARBIT", "boolean", 0);
        assert DiffersAt("VARBIT", "bool", 0);
      } else if i == 6 {
        assert DiffersAt("VARBIT", "datetime", 0);
      } else if i == 7 {
        assert DiffersAt("VARBIT", "date", 0);
      } else if i == 8 {
        assert DiffersAt("VARBIT", "double", 0);
      } else if i == 9 {
        assert DiffersAt("VARBIT", "numeric", 0);
      } else if i == 10 {
        assert DiffersAt("VARBIT", "enum", 0);
      } else if i == 11 {
        assert DiffersAt("VARBIT", "float", 0);
      } else if i == 12 {
        assert DiffersAt("VARBIT", "real", 0);
      } else if i == 13 {
        assert DiffersAt("VARBIT", "text", 0);
      } else if i == 14 {
        assert DiffersAt("VARBIT", "timestamp", 0);
      } else if i == 15 {
        assert DiffersAt("VARBIT", "timestamp", 0);
      } else if i == 16 {
        assert DiffersAt("VARBIT", "varchar", 3);
        assert DiffersAt("VARBIT", "character", 0);
      } else {
        assert DiffersAt("VARBIT", "char", 0);
      }
    }
  }

  /** `VARBIT` is no keyword of the second half's alternatives before number 17. */
  lemma {:induction false} VarbitBlocksSecond17()
    ensures SecondBlockedBefore("VARBIT", 17)
  {
    forall i | 0 <= i < 17 ensures BlocksFrom("VARBIT", SecondKeywords(i), 0) {
      if i == 0 {
        assert DiffersAt("VARBIT", "time", 0);
      } else if i == 1 {
        assert DiffersAt("VARBIT", "decimal", 0);
        assert DiffersAt("VARBIT", "numeric", 0);
      } else if i == 2 {
        assert DiffersAt("VARBIT", "binary", 0);
      } else if i == 3 {
        assert DiffersAt("VARBIT", "blob", 0);
      } else if i == 4 {
        assert DiffersAt("VARBIT", "longblob", 0);
      } else if i == 5 {
        assert DiffersAt("VARBIT", "mediumblob", 0);
      } else if i == 6 {
        assert DiffersAt("VARBIT", "mediumtext", 0);
      } else if i == 7 {
        assert DiffersAt("VARBIT", "longtext", 0);
      } else if i == 8 {
        assert DiffersAt("VARBIT", "tinyblob", 0);
      } else if i == 9 {
        assert DiffersAt("VARBIT", "tinytext", 0);
      } else if i == 10 {
        assert DiffersAt("VARBIT", "varbinary", 5);
      } else if i == 11 {
        assert DiffersAt("VARBIT", "bytea", 0);
      } else if i == 12 {
        assert DiffersAt("VARBIT", "macaddr", 0);
      } else if i == 13 {
        assert DiffersAt("VARBIT", "inet", 0);
      } else if i == 14 {
        assert DiffersAt("VARBIT", "uuid", 0);
      } else if i == 15 {
        assert DiffersAt("VARBIT", "jsonb", 0);
      } else {
        assert DiffersAt("VARBIT", "json", 0);
      }
    }
  }

  /** `BIT` is no keyword of the first half of `type_identifier`. */
  lemma {:induction false} BitPassesFirstHalf()
    ensures FirstBlockedBefore("BIT", 18)
  {
    forall i | 0 <= i < 18 ensures BlocksFrom("BIT", FirstKeywords(i), 0) {
      if i == 0 {
        assert DiffersAt("BIT", "tinyint", 0);
      } else if i == 1 {
        assert DiffersAt("BIT", "smallint", 0);
      } else if i == 2 {
        assert DiffersAt("BIT", "integer", 0);
      } else if i == 3 {
        assert DiffersAt("BIT", "int", 0);
      } else if i == 4 {
        assert DiffersAt("BIT", "bigint", 2);
      } else if i == 5 {
        assert DiffersAt("BIT", "boolean", 1);
        assert DiffersAt("BIT", "bool", 1);
      } else if i == 6 {
        assert DiffersAt("BIT", "datetime", 0);
      } else if i == 7 {
        assert DiffersAt("BIT", "date", 0);
      } else if i == 8 {
        assert DiffersAt("BIT", "double", 0);
      } else if i == 9 {
        assert DiffersAt("BIT", "numeric", 0);
      } else if i == 10 {
        assert DiffersAt("BIT", "enum", 0);
      } else if i == 11 {
        assert DiffersAt("BIT", "float", 0);
      } else if i == 12 {
        assert DiffersAt("BIT", "real", 0);
      } else if i == 13 {
        assert DiffersAt("BIT", "text", 0);
      } else if i == 14 {
        assert DiffersAt("BIT", "timestamp", 0);
      } else if i == 15 {
        assert DiffersAt("BIT", "timestamp", 0);
      } else if i == 16 {
        assert DiffersAt("BIT", "varchar", 0);
        assert DiffersAt("BIT", "character", 0);
      } else {
        assert DiffersAt("BIT", "char", 0);
      }
    }
  }

  /** `BIT` is no keyword of the second half's alternatives before number 17. */
  lemma {:induction false} BitBlocksSecond17()
    ensures SecondBlockedBefore("BIT", 17)
  {
    forall i | 0 <= i < 17 ensures BlocksFrom("BIT", SecondKeywords(i), 0) {
      if i == 0 {
        assert DiffersAt("BIT", "time", 0);
      } else if i == 1 {
        assert DiffersAt("BIT", "decimal", 0);
        assert DiffersAt("BIT", "numeric", 0);
      } else if i == 2 {
        assert DiffersAt("BIT", "binary", 2);
      } else if i == 3 {
        assert DiffersAt("BIT", "blob", 1);
      } else if i == 4 {
        assert DiffersAt("BIT", "longblob", 0);
      } else if i == 5 {
        assert DiffersAt("BIT", "mediumblob", 0);
      } else if i == 6 {
        assert DiffersAt("BIT", "mediumtext", 0);
      } else if i == 7 {
        assert DiffersAt("BIT", "longtext", 0);
      } else if i == 8 {
        assert DiffersAt("BIT", "tinyblob", 0);
      } else if i == 9 {
        assert DiffersAt("BIT", "tinytext", 0);
      } else if i == 10 {
        assert DiffersAt("BIT", "varbinary", 0);
      } else if i == 11 {
        assert DiffersAt("BIT", "bytea", 1);
      } else if i == 12 {
        assert DiffersAt("BIT", "macaddr", 0);
      } else if i == 13 {
        assert DiffersAt("BIT", "inet", 0);
      } else if i == 14 {
        assert DiffersAt("BIT", "uuid", 0);
      } else if i == 15 {
        assert DiffersAt("BIT", "jsonb", 0);
      } else {
        assert DiffersAt("BIT", "json", 0);
      }
    }
  }

  // ---------------------------------------------------------------------
  // The parser behind each alternative used below

  lemma {:induction false} FirstIsTinyintArm(lex: Lexicon)
    ensures FirstArm(0, lex) == TinyintArm
  {
  }

  lemma {:induction false} FirstIsSmallintArm(lex: Lexicon)
    ensures FirstArm(1, lex) == SmallintArm
  {
  }

  lemma {:induction false} FirstIsIntArm(lex: Lexicon)
    ensures FirstArm(3, lex) == IntArm
  {
  }

  lemma {:induction false} FirstIsBigintArm(lex: Lexicon)
    ensures FirstArm(4, lex) == BigintArm
  {
  }

  lemma {:induction false} FirstIsBoolArm(lex: Lexicon)
    ensures FirstArm(5, lex) == BoolArm
  {
  }

  lemma {:induction false} FirstIsDateTimeArm(lex: Lexicon)
    ensures FirstArm(6, lex) == DateTimeArm
  {
  }

  lemma {:induction false} FirstIsDateArm(lex: Lexicon)
    ensures FirstArm(7, lex) == DateArm
  {
  }

  lemma {:induction false} FirstIsDoubleArm(lex: Lexicon)
    ensures FirstArm(8, lex) == DoubleArm
  {
  }

  lemma {:induction false} FirstIsNumericArm(lex: Lexicon)
    ensures FirstArm(9, lex) == NumericArm
  {
  }

  lemma {:induction false} FirstIsFloatArm(lex: Lexicon)
    ensures FirstArm(11, lex) == FloatArm
  {
  }

  lemma {:induction false} FirstIsRealArm(lex: Lexicon)
    ensures FirstArm(12, lex) == RealArm
  {
  }

  lemma {:induction false} FirstIsTextArm(lex: Lexicon)
    ensures FirstArm(13, lex) == TextArm
  {
  }

  lemma {:induction false} FirstIsTimestampTzArm(lex: Lexicon)
    ensures FirstArm(14, lex) == TimestampTzArm
  {
  }

  lemma {:induction false} FirstIsTimestampArm(lex: Lexicon)
    ensures FirstArm(15, lex) == TimestampArm
  {
  }

  lemma {:induction false} FirstIsVarcharArm(lex: Lexicon)
    ensures FirstArm(16, lex) == VarcharArm
  {
  }

  lemma {:induction false} FirstIsCharArm(lex: Lexicon)
    ensures FirstArm(17, lex) == CharArm
  {
  }

  lemma {:induction false} SecondIsTimeArm()
    ensures SecondArm(0) == TimeArm
  {
  }

  lemma {:induction false} SecondIsDecimalArm()
    ensures SecondArm(1) == DecimalArm
  {
  }

  lemma {:induction false} SecondIsBinaryArm()
    ensures SecondArm(2) == BinaryArm
  {
  }

  lemma {:induction false} SecondIsBlobArm()
    ensures SecondArm(3) == BlobArm
  {
  }

  lemma {:induction false} SecondIsLongblobArm()
    ensures SecondArm(4) == LongblobArm
  {
  }

  lemma {:induction false} SecondIsMediumblobArm()
    ensures SecondArm(5) == MediumblobArm
  {
  }

  lemma {:induction false} SecondIsMediumtextArm()
    ensures SecondArm(6) == MediumtextArm
  {
  }

  lemma {:induction false} SecondIsLongtextArm()
    ensures SecondArm(7) == LongtextArm
  {
  }

  lemma {:induction false} SecondIsTinyblobArm()
    ensures SecondArm(8) == TinyblobArm
  {
  }

  lemma {:induction false} SecondIsTinytextArm()
    ensures SecondArm(9) == TinytextArm
  {
  }

  lemma {:induction false} SecondIsVarbinaryArm()
    ensures SecondArm(10) == VarbinaryArm
  {
  }

  lemma {:induction false} SecondIsByteArrayArm()
    ensures SecondArm(11) == ByteArrayArm
  {
  }

  lemma {:induction false} SecondIsMacAddrArm()
    ensures SecondArm(12) == MacAddrArm
  {
  }

  lemma {:induction false} SecondIsInetArm()
    ensures SecondArm(13) == InetArm
  {
  }

  lemma {:induction false} SecondIsUuidArm()
    ensures SecondArm(14) == UuidArm
  {
  }

  lemma {:induction false} SecondIsJsonbArm()
    ensures SecondArm(15) == JsonbArm
  {
  }

  lemma {:induction false} SecondIsJsonArm()
    ensures SecondArm(16) == JsonArm
  {
  }

  lemma {:induction false} SecondIsSerialArm()
    ensures SecondArm(19) == SerialArm
  {
  }

  lemma {:induction false} SecondIsBigSerialArm()
    ensures SecondArm(20) == BigSerialArm
  {
  }

  lemma {:induction false} SecondIsVarbitArm()
    ensures SecondArm(17) == VarbitArm
  {
  }

  lemma {:induction false} SecondIsBitArm()
    ensures SecondArm(18) == BitArm
  {
  }

  // ---------------------------------------------------------------------
  // The alternative that decides each head word

  /** Where the alternative for `TINYINT` reads the head word `TINYINT` and a tail, `type_identifier` reads the same. */
  lemma {:induction false} TinyintDecides(lex: Lexicon, tail: seq<char>, t: SqlType, n: nat)
    requires NotLetter(tail)
    requires FirstArm(0, lex)("TINYINT" + tail) == Done(t, n)
    ensures TypeIdentifier(lex, "TINYINT" + tail) == Done(t, n)
  {
    FirstWins(lex, 0, "TINYINT", tail);
  }

  /** Where the alternative for `SMALLINT` reads the head word `SMALLINT` and a tail, `type_identifier` reads the same. */
  lemma {:induction false} SmallintDecides(lex: Lexicon, tail: seq<char>, t: SqlType, n: nat)
    requires NotLetter(tail)
    requires FirstArm(1, lex)("SMALLINT" + tail) == Done(t, n)
    ensures TypeIdentifier(lex, "SMALLINT" + tail) == Done(t, n)
  {
    assert FirstBlockedBefore("SMALLINT", 1) by { SmallintBlocksFirst1(); }
    FirstWins(lex, 1, "SMALLINT", tail);
  }

  /** Where the alternative for `INT` reads the head word `INT` and a tail, `type_identifier` reads the same. */
  lemma {:induction false} IntDecides(lex: Lexicon, tail: seq<char>, t: SqlType, n: nat)
    requires NotLetter(tail)
    requires FirstArm(3, lex)("INT" + tail) == Done(t, n)
    ensures TypeIdentifier(lex, "INT" + tail) == Done(t, n)
  {
    assert FirstBlockedBefore("INT", 3) by { IntBlocksFirst3(); }
    FirstWins(lex, 3, "INT", tail);
  }

  /** Where the alternative for `BIGINT` reads the head word `BIGINT` and a tail, `type_identifier` reads the same. */
  lemma {:induction false} BigintDecides(lex: Lexicon, tail: seq<char>, t: SqlType, n: nat)
    requires NotLetter(tail)
    requires FirstArm(4, lex)("BIGINT" + tail) == Done(t, n)
    ensures TypeIdentifier(lex, "BIGINT" + tail) == Done(t, n)
  {
    assert FirstBlockedBefore("BIGINT", 4) by { BigintBlocksFirst4(); }
    FirstWins(lex, 4, "BIGINT", tail);
  }

  /** Where the alternative for `BOOL` reads the head word `BOOL` and a tail, `type_identifier` reads the same. */
  lemma {:induction false} BoolDecides(lex: Lexicon, tail: seq<char>, t: SqlType, n: nat)
    requires NotLetter(tail)
    requires FirstArm(5, lex)("BOOL" + tail) == Done(t, n)
    ensures TypeIdentifier(lex, "BOOL" + tail) == Done(t, n)
  {
    assert FirstBlockedBefore("BOOL", 5) by { BoolBlocksFirst5(); }
    FirstWins(lex, 5, "BOOL", tail);
  }

  /** Where the alternative for `DATETIME` reads the head word `DATETIME` and a tail, `type_identifier` reads the same. */
  lemma {:induction false} DatetimeDecides(lex: Lexicon, tail: seq<char>, t: SqlType, n: nat)
    requires NotLetter(tail)
    requires FirstArm(6, lex)("DATETIME" + tail) == Done(t, n)
    ensures TypeIdentifier(lex, "DATETIME" + tail) == Done(t, n)
  {
    assert FirstBlockedBefore("DATETIME", 6) by { DatetimeBlocksFirst6(); }
    FirstWins(lex, 6, "DATETIME", tail);
  }

  /** Where the alternative for `DATE` reads the head word `DATE` and a tail, `type_identifier` reads the same. */
  lemma {:induction false} DateDecides(lex: Lexicon, tail: seq<char>, t: SqlType, n: nat)
    requires NotLetter(tail)
    requires FirstArm(7, lex)("DATE" + tail) == Done(t, n)
    ensures TypeIdentifier(lex, "DATE" + tail) == Done(t, n)
  {
    assert FirstBlockedBefore("DATE", 7) by { DateBlocksFirst7(); }
    FirstWins(lex, 7, "DATE", tail);
  }

  /** Where the alternative for `DOUBLE` reads the head word `DOUBLE` and a tail, `type_identifier` reads the same. */
  lemma {:induction false} DoubleDecides(lex: Lexicon, tail: seq<char>, t: SqlType, n: nat)
    requires NotLetter(tail)
    requires FirstArm(8, lex)("DOUBLE" + tail) == Done(t, n)
    ensures TypeIdentifier(lex, "DOUBLE" + tail) == Done(t, n)
  {
    assert FirstBlockedBefore("DOUBLE", 8) by { DoubleBlocksFirst8(); }
    FirstWins(lex, 8, "DOUBLE", tail);
  }

  /** Where the alternative for `NUMERIC` reads the head word `NUMERIC` and a tail, `type_identifier` reads the same. */
  lemma {:induction false} NumericDecides(lex: Lexicon, tail: seq<char>, t: SqlType, n: nat)
    requires NotLetter(tail)
    requires FirstArm(9, lex)("NUMERIC" + tail) == Done(t, n)
    ensures TypeIdentifier(lex, "NUMERIC" + tail) == Done(t, n)
  {
    assert FirstBlockedBefore("NUMERIC", 9) by { NumericBlocksFirst9(); }
    FirstWins(lex, 9, "NUMERIC", tail);
  }

  /** Where the alternative for `FLOAT` reads the head word `FLOAT` and a tail, `type_identifier` reads the same. */
  lemma {:induction false} FloatDecides(lex: Lexicon, tail: seq<char>, t: SqlType, n: nat)
    requires NotLetter(tail)
    requires FirstArm(11, lex)("FLOAT" + tail) == Done(t, n)
    ensures TypeIdentifier(lex, "FLOAT" + tail) == Done(t, n)
  {
    assert FirstBlockedBefore("FLOAT", 11) by { FloatBlocksFirst11(); }
    FirstWins(lex, 11, "FLOAT", tail);
  }

  /** Where the alternative for `REAL` reads the head word `REAL` and a tail, `type_identifier` reads the same. */
  lemma {:induction false} RealDecides(lex: Lexicon, tail: seq<char>, t: SqlType, n: nat)
    requires NotLetter(tail)
    requires FirstArm(12, lex)("REAL" + tail) == Done(t, n)
    ensures TypeIdentifier(lex, "REAL" + tail) == Done(t, n)
  {
    assert FirstBlockedBefore("REAL", 12) by { RealBlocksFirst12(); }
    FirstWins(lex, 12, "REAL", tail);
  }

  /** Where the alternative for `TEXT` reads the head word `TEXT` and a tail, `type_identifier` reads the same. */
  lemma {:induction false} TextDecides(lex: Lexicon, tail: seq<char>, t: SqlType, n: nat)
    requires NotLetter(tail)
    requires FirstArm(13, lex)("TEXT" + tail) == Done(t, n)
    ensures TypeIdentifier(lex, "TEXT" + tail) == Done(t, n)
  {
    assert FirstBlockedBefore("TEXT", 13) by { TextBlocksFirst13(); }
    FirstWins(lex, 13, "TEXT", tail);
  }

  /** Where the alternative for `TIMESTAMP` reads the head word `TIMESTAMP` and a tail, `type_identifier` reads the same. */
  lemma {:induction false} TimestampTzDecides(lex: Lexicon, tail: seq<char>, t: SqlType, n: nat)
    requires NotLetter(tail)
    requires FirstArm(14, lex)("TIMESTAMP" + tail) == Done(t, n)
    ensures TypeIdentifier(lex, "TIMESTAMP" + tail) == Done(t, n)
  {
    assert FirstBlockedBefore("TIMESTAMP", 14) by { TimestampBlocksFirst14(); }
    FirstWins(lex, 14, "TIMESTAMP", tail);
  }

  /** Where the alternative for `TIMESTAMP (after the one before it)` reads the head word `TIMESTAMP` and a tail, `type_identifier` reads the same. */
  lemma {:induction false} TimestampDecides(lex: Lexicon, tail: seq<char>, t: SqlType, n: nat)
    requires NotLetter(tail)
    requires FirstArm(14, lex)("TIMESTAMP" + tail).Fail?
    requires FirstArm(15, lex)("TIMESTAMP" + tail) == Done(t, n)
    ensures TypeIdentifier(lex, "TIMESTAMP" + tail) == Done(t, n)
  {
    assert FirstBlockedBefore("TIMESTAMP", 14) by { TimestampBlocksFirst14(); }
    FirstWinsPast(lex, 15, "TIMESTAMP", tail);
  }

  /** Where the alternative for `VARCHAR` reads the head word `VARCHAR` and a tail, `type_identifier` reads the same. */
  lemma {:induction false} VarcharDecides(lex: Lexicon, tail: seq<char>, t: SqlType, n: nat)
    requires NotLetter(tail)
    requires FirstArm(16, lex)("VARCHAR" + tail) == Done(t, n)
    ensures TypeIdentifier(lex, "VARCHAR" + tail) == Done(t, n)
  {
    assert FirstBlockedBefore("VARCHAR", 16) by { VarcharBlocksFirst16(); }
    FirstWins(lex, 16, "VARCHAR", tail);
  }

  /** Where the alternative for `CHAR` reads the head word `CHAR` and a tail, `type_identifier` reads the same. */
  lemma {:induction false} CharDecides(lex: Lexicon, tail: seq<char>, t: SqlType, n: nat)
    requires NotLetter(tail)
    requires FirstArm(17, lex)("CHAR" + tail) == Done(t, n)
    ensures TypeIdentifier(lex, "CHAR" + tail) == Done(t, n)
  {
    assert FirstBlockedBefore("CHAR", 17) by { CharBlocksFirst17(); }
    FirstWins(lex, 17, "CHAR", tail);
  }

  /** Where the alternative for `TIME` reads the head word `TIME` and a tail, `type_identifier` reads the same. */
  lemma {:induction false} TimeDecides(lex: Lexicon, tail: seq<char>, t: SqlType, n: nat)
    requires NotLetter(tail)
    requires SecondArm(0)("TIME" + tail) == Done(t, n)
    ensures TypeIdentifier(lex, "TIME" + tail) == Done(t, n)
  {
    assert FirstBlockedBefore("TIME", 18) by { TimePassesFirstHalf(); }
    SecondWins(lex, 0, "TIME", tail);
  }

  /** Where the alternative for `DECIMAL` reads the head word `DECIMAL` and a tail, `type_identifier` reads the same. */
  lemma {:induction false} DecimalDecides(lex: Lexicon, tail: seq<char>, t: SqlType, n: nat)
    requires NotLetter(tail)
    requires SecondArm(1)("DECIMAL" + tail) == Done(t, n)
    ensures TypeIdentifier(lex, "DECIMAL" + tail) == Done(t, n)
  {
    assert FirstBlockedBefore("DECIMAL", 18) by { DecimalPassesFirstHalf(); }
    assert SecondBlockedBefore("DECIMAL", 1) by { DecimalBlocksSecond1(); }
    SecondWins(lex, 1, "DECIMAL", tail);
  }

  /** Where the alternative for `BINARY` reads the head word `BINARY` and a tail, `type_identifier` reads the same. */
  lemma {:induction false} BinaryDecides(lex: Lexicon, tail: seq<char>, t: SqlType, n: nat)
    requires NotLetter(tail)
    requires SecondArm(2)("BINARY" + tail) == Done(t, n)
    ensures TypeIdentifier(lex, "BINARY" + tail) == Done(t, n)
  {
    assert FirstBlockedBefore("BINARY", 18) by { BinaryPassesFirstHalf(); }
    assert SecondBlockedBefore("BINARY", 2) by { BinaryBlocksSecond2(); }
    SecondWins(lex, 2, "BINARY", tail);
  }

  /** Where the alternative for `BLOB` reads the head word `BLOB` and a tail, `type_identifier` reads the same. */
  lemma {:induction false} BlobDecides(lex: Lexicon, tail: seq<char>, t: SqlType, n: nat)
    requires NotLetter(tail)
    requires SecondArm(3)("BLOB" + tail) == Done(t, n)
    ensures TypeIdentifier(lex, "BLOB" + tail) == Done(t, n)
  {
    assert FirstBlockedBefore("BLOB", 18) by { BlobPassesFirstHalf(); }
    assert SecondBlockedBefore("BLOB", 3) by { BlobBlocksSecond3(); }
    SecondWins(lex, 3, "BLOB", tail);
  }

  /** Where the alternative for `LONGBLOB` reads the head word `LONGBLOB` and a tail, `type_identifier` reads the same. */
  lemma {:induction false} LongblobDecides(lex: Lexicon, tail: seq<char>, t: SqlType, n: nat)
    requires NotLetter(tail)
    requires SecondArm(4)("LONGBLOB" + tail) == Done(t, n)
    ensures TypeIdentifier(lex, "LONGBLOB" + tail) == Done(t, n)
  {
    assert FirstBlockedBefore("LONGBLOB", 18) by { LongblobPassesFirstHalf(); }
    assert SecondBlockedBefore("LONGBLOB", 4) by { LongblobBlocksSecond4(); }
    SecondWins(lex, 4, "LONGBLOB", tail);
  }

  /** Where the alternative for `MEDIUMBLOB` reads the head word `MEDIUMBLOB` and a tail, `type_identifier` reads the same. */
  lemma {:induction false} MediumblobDecides(lex: Lexicon, tail: seq<char>, t: SqlType, n: nat)
    requires NotLetter(tail)
    requires SecondArm(5)("MEDIUMBLOB" + tail) == Done(t, n)
    ensures TypeIdentifier(lex, "MEDIUMBLOB" + tail) == Done(t, n)
  {
    assert FirstBlockedBefore("MEDIUMBLOB", 18) by { MediumblobPassesFirstHalf(); }
    assert SecondBlockedBefore("MEDIUMBLOB", 5) by { MediumblobBlocksSecond5(); }
    SecondWins(lex, 5, "MEDIUMBLOB", tail);
  }

  /** Where the alternative for `MEDIUMTEXT` reads the head word `MEDIUMTEXT` and a tail, `type_identifier` reads the same. */
  lemma {:induction false} MediumtextDecides(lex: Lexicon, tail: seq<char>, t: SqlType, n: nat)
    requires NotLetter(tail)
    requires SecondArm(6)("MEDIUMTEXT" + tail) == Done(t, n)
    ensures TypeIdentifier(lex, "MEDIUMTEXT" + tail) == Done(t, n)
  {
    assert FirstBlockedBefore("MEDIUMTEXT", 18) by { MediumtextPassesFirstHalf(); }
    assert SecondBlockedBefore("MEDIUMTEXT", 6) by { MediumtextBlocksSecond6(); }
    SecondWins(lex, 6, "MEDIUMTEXT", tail);
  }

  /** Where the alternative for `LONGTEXT` reads the head word `LONGTEXT` and a tail, `type_identifier` reads the same. */
  lemma {:induction false} LongtextDecides(lex: Lexicon, tail: seq<char>, t: SqlType, n: nat)
    requires NotLetter(tail)
    requires SecondArm(7)("LONGTEXT" + tail) == Done(t, n)
    ensures TypeIdentifier(lex, "LONGTEXT" + tail) == Done(t, n)
  {
    assert FirstBlockedBefore("LONGTEXT", 18) by { LongtextPassesFirstHalf(); }
    assert SecondBlockedBefore("LONGTEXT", 7) by { LongtextBlocksSecond7(); }
    SecondWins(lex, 7, "LONGTEXT", tail);
  }

  /** Where the alternative for `TINYBLOB` reads the head word `TINYBLOB` and a tail, `type_identifier` reads the same. */
  lemma {:induction false} TinyblobDecides(lex: Lexicon, tail: seq<char>, t: SqlType, n: nat)
    requires NotLetter(tail)
    requires SecondArm(8)("TINYBLOB" + tail) == Done(t, n)
    ensures TypeIdentifier(lex, "TINYBLOB" + tail) == Done(t, n)
  {
    assert FirstBlockedBefore("TINYBLOB", 18) by { TinyblobPassesFirstHalf(); }
    assert SecondBlockedBefore("TINYBLOB", 8) by { TinyblobBlocksSecond8(); }
    SecondWins(lex, 8, "TINYBLOB", tail);
  }

  /** Where the alternative for `TINYTEXT` reads the head word `TINYTEXT` and a tail, `type_identifier` reads the same. */
  lemma {:induction false} TinytextDecides(lex: Lexicon, tail: seq<char>, t: SqlType, n: nat)
    requires NotLetter(tail)
    requires SecondArm(9)("TINYTEXT" + tail) == Done(t, n)
    ensures TypeIdentifier(lex, "TINYTEXT" + tail) == Done(t, n)
  {
    assert FirstBlockedBefore("TINYTEXT", 18) by { TinytextPassesFirstHalf(); }
    assert SecondBlockedBefore("TINYTEXT", 9) by { TinytextBlocksSecond9(); }
    SecondWins(lex, 9, "TINYTEXT", tail);
  }

  /** Where the alternative for `VARBINARY` reads the head word `VARBINARY` and a tail, `type_identifier` reads the same. */
  lemma {:induction false} VarbinaryDecides(lex: Lexicon, tail: seq<char>, t: SqlType, n: nat)
    requires NotLetter(tail)
    requires SecondArm(10)("VARBINARY" + tail) == Done(t, n)
    ensures TypeIdentifier(lex, "VARBINARY" + tail) == Done(t, n)
  {
    assert FirstBlockedBefore("VARBINARY", 18) by { VarbinaryPassesFirstHalf(); }
    assert SecondBlockedBefore("VARBINARY", 10) by { VarbinaryBlocksSecond10(); }
    SecondWins(lex, 10, "VARBINARY", tail);
  }

  /** Where the alternative for `BYTEA` reads the head word `BYTEA` and a tail, `type_identifier` reads the same. */
  lemma {:induction false} ByteaDecides(lex: Lexicon, tail: seq<char>, t: SqlType, n: nat)
    requires NotLetter(tail)
    requires SecondArm(11)("BYTEA" + tail) == Done(t, n)
    ensures TypeIdentifier(lex, "BYTEA" + tail) == Done(t, n)
  {
    assert FirstBlockedBefore("BYTEA", 18) by { ByteaPassesFirstHalf(); }
    assert SecondBlockedBefore("BYTEA", 11) by { ByteaBlocksSecond11(); }
    SecondWins(lex, 11, "BYTEA", tail);
  }

  /** Where the alternative for `MACADDR` reads the head word `MACADDR` and a tail, `type_identifier` reads the same. */
  lemma {:induction false} MacaddrDecides(lex: Lexicon, tail: seq<char>, t: SqlType, n: nat)
    requires NotLetter(tail)
    requires SecondArm(12)("MACADDR" + tail) == Done(t, n)
    ensures TypeIdentifier(lex, "MACADDR" + tail) == Done(t, n)
  {
    assert FirstBlockedBefore("MACADDR", 18) by { MacaddrPassesFirstHalf(); }
    assert SecondBlockedBefore("MACADDR", 12) by { MacaddrBlocksSecond12(); }
    SecondWins(lex, 12, "MACADDR", tail);
  }

  /** Where the alternative for `INET` reads the head word `INET` and a tail, `type_identifier` reads the same. */
  lemma {:induction false} InetDecides(lex: Lexicon, tail: seq<char>, t: SqlType, n: nat)
    requires NotLetter(tail)
    requires SecondArm(13)("INET" + tail) == Done(t, n)
    ensures TypeIdentifier(lex, "INET" + tail) == Done(t, n)
  {
    assert FirstBlockedBefore("INET", 18) by { InetPassesFirstHalf(); }
    assert SecondBlockedBefore("INET", 13) by { InetBlocksSecond13(); }
    SecondWins(lex, 13, "INET", tail);
  }

  /** Where the alternative for `UUID` reads the head word `UUID` and a tail, `type_identifier` reads the same. */
  lemma {:induction false} UuidDecides(lex: Lexicon, tail: seq<char>, t: SqlType, n: nat)
    requires NotLetter(tail)
    requires SecondArm(14)("UUID" + tail) == Done(t, n)
    ensures TypeIdentifier(lex, "UUID" + tail) == Done(t, n)
  {
    assert FirstBlockedBefore("UUID", 18) by { UuidPassesFirstHalf(); }
    assert SecondBlockedBefore("UUID", 14) by { UuidBlocksSecond14(); }
    SecondWins(lex, 14, "UUID", tail);
  }

  /** Where the alternative for `JSONB` reads the head word `JSONB` and a tail, `type_identifier` reads the same. */
  lemma {:induction false} JsonbDecides(lex: Lexicon, tail: seq<char>, t: SqlType, n: nat)
    requires NotLetter(tail)
    requires SecondArm(15)("JSONB" + tail) == Done(t, n)
    ensures TypeIdentifier(lex, "JSONB" + tail) == Done(t, n)
  {
    assert FirstBlockedBefore("JSONB", 18) by { JsonbPassesFirstHalf(); }
    assert SecondBlockedBefore("JSONB", 15) by { JsonbBlocksSecond15(); }
    SecondWins(lex, 15, "JSONB", tail);
  }

  /** Where the alternative for `JSON` reads the head word `JSON` and a tail, `type_identifier` reads the same. */
  lemma {:induction false} JsonDecides(lex: Lexicon, tail: seq<char>, t: SqlType, n: nat)
    requires NotLetter(tail)
    requires SecondArm(16)("JSON" + tail) == Done(t, n)
    ensures TypeIdentifier(lex, "JSON" + tail) == Done(t, n)
  {
    assert FirstBlockedBefore("JSON", 18) by { JsonPassesFirstHalf(); }
    assert SecondBlockedBefore("JSON", 16) by { JsonBlocksSecond16(); }
    SecondWins(lex, 16, "JSON", tail);
  }

  /** Where the alternative for `SERIAL` reads the head word `SERIAL` and a tail, `type_identifier` reads the same. */
  lemma {:induction false} SerialDecides(lex: Lexicon, tail: seq<char>, t: SqlType, n: nat)
    requires NotLetter(tail)
    requires SecondArm(19)("SERIAL" + tail) == Done(t, n)
    ensures TypeIdentifier(lex, "SERIAL" + tail) == Done(t, n)
  {
    assert FirstBlockedBefore("SERIAL", 18) by { SerialPassesFirstHalf(); }
    assert SecondBlockedBefore("SERIAL", 19) by { SerialBlocksSecond19(); }
    SecondWins(lex, 19, "SERIAL", tail);
  }

  /** Where the alternative for `BIGSERIAL` reads the head word `BIGSERIAL` and a tail, `type_identifier` reads the same. */
  lemma {:induction false} BigserialDecides(lex: Lexicon, tail: seq<char>, t: SqlType, n: nat)
    requires NotLetter(tail)
    requires SecondArm(20)("BIGSERIAL" + tail) == Done(t, n)
    ensures TypeIdentifier(lex, "BIGSERIAL" + tail) == Done(t, n)
  {
    assert FirstBlockedBefore("BIGSERIAL", 18) by { BigserialPassesFirstHalf(); }
    assert SecondBlockedBefore("BIGSERIAL", 20) by { BigserialBlocksSecond20(); }
    SecondWins(lex, 20, "BIGSERIAL", tail);
  }

  /** Where the alternative for `VARBIT` reads the head word `VARBIT` and a tail, `type_identifier` reads the same. */
  lemma {:induction false} VarbitDecides(lex: Lexicon, tail: seq<char>, t: SqlType, n: nat)
    requires NotLetter(tail)
    requires SecondArm(17)("VARBIT" + tail) == Done(t, n)
    ensures TypeIdentifier(lex, "VARBIT" + tail) == Done(t, n)
  {
    assert FirstBlockedBefore("VARBIT", 18) by { VarbitPassesFirstHalf(); }
    assert SecondBlockedBefore("VARBIT", 17) by { VarbitBlocksSecond17(); }
    SecondWins(lex, 17, "VARBIT", tail);
  }

  /** Where the alternative for `BIT (after the one before it)` reads the head word `BIT` and a tail, `type_identifier` reads the same. */
  lemma {:induction false} BitDecides(lex: Lexicon, tail: seq<char>, t: SqlType, n: nat)
    requires NotLetter(tail)
    requires SecondArm(17)("BIT" + tail).Fail?
    requires SecondArm(18)("BIT" + tail) == Done(t, n)
    ensures TypeIdentifier(lex, "BIT" + tail) == Done(t, n)
  {
    assert FirstBlockedBefore("BIT", 18) by { BitPassesFirstHalf(); }
    assert SecondBlockedBefore("BIT", 17) by { BitBlocksSecond17(); }
    SecondWinsPast(lex, 18, "BIT", tail);
  }

  // ---------------------------------------------------------------------
  // type_identifier on each rendered type

  /** The alternative for `TINYINT LenText(len)` reads its text. */
  lemma {:induction false} TinyintArmReads(len: Option<u16>, rest: seq<char>)
    requires Delim(rest)
    ensures IntType("tinyint", TinyKind, "TINYINT" + (LenText(len) + rest)) == Done(Tinyint(len), |"TINYINT" + LenText(len)|)
  {
    IntRead("tinyint", TinyKind, "TINYINT", len, rest, Tinyint(len));
  }


  /** `type_identifier` reads the text of `Tinyint(len)` back, and no more. */
  lemma {:induction false} TinyintRoundTrip(lex: Lexicon, len: Option<u16>, rest: seq<char>)
    requires Delim(rest)
    ensures TypeIdentifier(lex, "TINYINT" + LenText(len) + rest) == Done(Tinyint(len), |"TINYINT" + LenText(len)|)
  {
    var tail := LenText(len) + rest;
    assert "TINYINT" + LenText(len) + rest == "TINYINT" + tail;
    assert IntType("tinyint", TinyKind, "TINYINT" + tail) == Done(Tinyint(len), |"TINYINT" + LenText(len)|) by { TinyintArmReads(len, rest); }
    assert NotLetter(tail) by {
      DelimRest(rest);
      LenRead(len, rest);
    }
    FirstIsTinyintArm(lex);
    TinyintDecides(lex, tail, Tinyint(len), |"TINYINT" + LenText(len)|);
  }

  /** The alternative for `TINYINT LenText(len)  UNSIGNED` reads its text. */
  lemma {:induction false} UnsignedTinyintArmReads(len: Option<u16>, rest: seq<char>)
    requires Delim(rest)
    ensures IntType("tinyint", TinyKind, "TINYINT" + (LenText(len) + (" UNSIGNED" + rest))) == Done(UnsignedTinyint(len), |"TINYINT" + LenText(len) + " UNSIGNED"|)
  {
    IntUnsignedRead("tinyint", TinyKind, "TINYINT", len, rest, UnsignedTinyint(len));
  }


  /** `type_identifier` reads the text of `UnsignedTinyint(len)` back, and no more. */
  lemma {:induction false} UnsignedTinyintRoundTrip(lex: Lexicon, len: Option<u16>, rest: seq<char>)
    requires Delim(rest)
    ensures TypeIdentifier(lex, "TINYINT" + LenText(len) + " UNSIGNED" + rest) == Done(UnsignedTinyint(len), |"TINYINT" + LenText(len) + " UNSIGNED"|)
  {
    var tail := LenText(len) + (" UNSIGNED" + rest);
    assert "TINYINT" + LenText(len) + " UNSIGNED" + rest == "TINYINT" + tail;
    assert IntType("tinyint", TinyKind, "TINYINT" + tail) == Done(UnsignedTinyint(len), |"TINYINT" + LenText(len) + " UNSIGNED"|) by { UnsignedTinyintArmReads(len, rest); }
    assert NotLetter(tail) by { LenRead(len, " UNSIGNED" + rest); }
    FirstIsTinyintArm(lex);
    TinyintDecides(lex, tail, UnsignedTinyint(len), |"TINYINT" + LenText(len) + " UNSIGNED"|);
  }

  /** The alternative for `SMALLINT LenText(len)` reads its text. */
  lemma {:induction false} SmallintArmReads(len: Option<u16>, rest: seq<char>)
    requires Delim(rest)
    ensures IntType("smallint", SmallKind, "SMALLINT" + (LenText(len) + rest)) == Done(Smallint(len), |"SMALLINT" + LenText(len)|)
  {
    IntRead("smallint", SmallKind, "SMALLINT", len, rest, Smallint(len));
  }


  /** `type_identifier` reads the text of `Smallint(len)` back, and no more. */
  lemma {:induction false} SmallintRoundTrip(lex: Lexicon, len: Option<u16>, rest: seq<char>)
    requires Delim(rest)
    ensures TypeIdentifier(lex, "SMALLINT" + LenText(len) + rest) == Done(Smallint(len), |"SMALLINT" + LenText(len)|)
  {
    var tail := LenText(len) + rest;
    assert "SMALLINT" + LenText(len) + rest == "SMALLINT" + tail;
    assert IntType("smallint", SmallKind, "SMALLINT" + tail) == Done(Smallint(len), |"SMALLINT" + LenText(len)|) by { SmallintArmReads(len, rest); }
    assert NotLetter(tail) by {
      DelimRest(rest);
      LenRead(len, rest);
    }
    FirstIsSmallintArm(lex);
    SmallintDecides(lex, tail, Smallint(len), |"SMALLINT" + LenText(len)|);
  }

  /** The alternative for `SMALLINT LenText(len)  UNSIGNED` reads its text. */
  lemma {:induction false} UnsignedSmallintArmReads(len: Option<u16>, rest: seq<char>)
    requires Delim(rest)
    ensures IntType("smallint", SmallKind, "SMALLINT" + (LenText(len) + (" UNSIGNED" + rest))) == Done(UnsignedSmallint(len), |"SMALLINT" + LenText(len) + " UNSIGNED"|)
  {
    IntUnsignedRead("smallint", SmallKind, "SMALLINT", len, rest, UnsignedSmallint(len));
  }


  /** `type_identifier` reads the text of `UnsignedSmallint(len)` back, and no more. */
  lemma {:induction false} UnsignedSmallintRoundTrip(lex: Lexicon, len: Option<u16>, rest: seq<char>)
    requires Delim(rest)
    ensures TypeIdentifier(lex, "SMALLINT" + LenText(len) + " UNSIGNED" + rest) == Done(UnsignedSmallint(len), |"SMALLINT" + LenText(len) + " UNSIGNED"|)
  {
    var tail := LenText(len) + (" UNSIGNED" + rest);
    assert "SMALLINT" + LenText(len) + " UNSIGNED" + rest == "SMALLINT" + tail;
    assert IntType("smallint", SmallKind, "SMALLINT" + tail) == Done(UnsignedSmallint(len), |"SMALLINT" + LenText(len) + " UNSIGNED"|) by { UnsignedSmallintArmReads(len, rest); }
    assert NotLetter(tail) by { LenRead(len, " UNSIGNED" + rest); }
    FirstIsSmallintArm(lex);
    SmallintDecides(lex, tail, UnsignedSmallint(len), |"SMALLINT" + LenText(len) + " UNSIGNED"|);
  }

  /** The alternative for `INT LenText(len)` reads its text. */
  lemma {:induction false} IntArmReads(len: Option<u16>, rest: seq<char>)
    requires Delim(rest)
    ensures IntType("int", IntegerKind, "INT" + (LenText(len) + rest)) == Done(Int(len), |"INT" + LenText(len)|)
  {
    IntRead("int", IntegerKind, "INT", len, rest, Int(len));
  }


  /** `type_identifier` reads the text of `Int(len)` back, and no more. */
  lemma {:induction false} IntRoundTrip(lex: Lexicon, len: Option<u16>, rest: seq<char>)
    requires Delim(rest)
    ensures TypeIdentifier(lex, "INT" + LenText(len) + rest) == Done(Int(len), |"INT" + LenText(len)|)
  {
    var tail := LenText(len) + rest;
    assert "INT" + LenText(len) + rest == "INT" + tail;
    assert IntType("int", IntegerKind, "INT" + tail) == Done(Int(len), |"INT" + LenText(len)|) by { IntArmReads(len, rest); }
    assert NotLetter(tail) by {
      DelimRest(rest);
      LenRead(len, rest);
    }
    FirstIsIntArm(lex);
    IntDecides(lex, tail, Int(len), |"INT" + LenText(len)|);
  }

  /** The alternative for `INT LenText(len)  UNSIGNED` reads its text. */
  lemma {:induction false} UnsignedIntArmReads(len: Option<u16>, rest: seq<char>)
    requires Delim(rest)
    ensures IntType("int", IntegerKind, "INT" + (LenText(len) + (" UNSIGNED" + rest))) == Done(UnsignedInt(len), |"INT" + LenText(len) + " UNSIGNED"|)
  {
    IntUnsignedRead("int", IntegerKind, "INT", len, rest, UnsignedInt(len));
  }


  /** `type_identifier` reads the text of `UnsignedInt(len)` back, and no more. */
  lemma {:induction false} UnsignedIntRoundTrip(lex: Lexicon, len: Option<u16>, rest: seq<char>)
    requires Delim(rest)
    ensures TypeIdentifier(lex, "INT" + LenText(len) + " UNSIGNED" + rest) == Done(UnsignedInt(len), |"INT" + LenText(len) + " UNSIGNED"|)
  {
    var tail := LenText(len) + (" UNSIGNED" + rest);
    assert "INT" + LenText(len) + " UNSIGNED" + rest == "INT" + tail;
    assert IntType("int", IntegerKind, "INT" + tail) == Done(UnsignedInt(len), |"INT" + LenText(len) + " UNSIGNED"|) by { UnsignedIntArmReads(len, rest); }
    assert NotLetter(tail) by { LenRead(len, " UNSIGNED" + rest); }
    FirstIsIntArm(lex);
    IntDecides(lex, tail, UnsignedInt(len), |"INT" + LenText(len) + " UNSIGNED"|);
  }

  /** The alternative for `BIGINT LenText(len)` reads its text. */
  lemma {:induction false} BigintArmReads(len: Option<u16>, rest: seq<char>)
    requires Delim(rest)
    ensures IntType("bigint", BigKind, "BIGINT" + (LenText(len) + rest)) == Done(Bigint(len), |"BIGINT" + LenText(len)|)
  {
    IntRead("bigint", BigKind, "BIGINT", len, rest, Bigint(len));
  }


  /** `type_identifier` reads the text of `Bigint(len)` back, and no more. */
  lemma {:induction false} BigintRoundTrip(lex: Lexicon, len: Option<u16>, rest: seq<char>)
    requires Delim(rest)
    ensures TypeIdentifier(lex, "BIGINT" + LenText(len) + rest) == Done(Bigint(len), |"BIGINT" + LenText(len)|)
  {
    var tail := LenText(len) + rest;
    assert "BIGINT" + LenText(len) + rest == "BIGINT" + tail;
    assert IntType("bigint", BigKind, "BIGINT" + tail) == Done(Bigint(len), |"BIGINT" + LenText(len)|) by { BigintArmReads(len, rest); }
    assert NotLetter(tail) by {
      DelimRest(rest);
      LenRead(len, rest);
    }
    FirstIsBigintArm(lex);
    BigintDecides(lex, tail, Bigint(len), |"BIGINT" + LenText(len)|);
  }

  /** The alternative for `BIGINT LenText(len)  UNSIGNED` reads its text. */
  lemma {:induction false} UnsignedBigintArmReads(len: Option<u16>, rest: seq<char>)
    requires Delim(rest)
    ensures IntType("bigint", BigKind, "BIGINT" + (LenText(len) + (" UNSIGNED" + rest))) == Done(UnsignedBigint(len), |"BIGINT" + LenText(len) + " UNSIGNED"|)
  {
    IntUnsignedRead("bigint", BigKind, "BIGINT", len, rest, UnsignedBigint(len));
  }


  /** `type_identifier` reads the text of `UnsignedBigint(len)` back, and no more. */
  lemma {:induction false} UnsignedBigintRoundTrip(lex: Lexicon, len: Option<u16>, rest: seq<char>)
    requires Delim(rest)
    ensures TypeIdentifier(lex, "BIGINT" + LenText(len) + " UNSIGNED" + rest) == Done(UnsignedBigint(len), |"BIGINT" + LenText(len) + " UNSIGNED"|)
  {
    var tail := LenText(len) + (" UNSIGNED" + rest);
    assert "BIGINT" + LenText(len) + " UNSIGNED" + rest == "BIGINT" + tail;
    assert IntType("bigint", BigKind, "BIGINT" + tail) == Done(UnsignedBigint(len), |"BIGINT" + LenText(len) + " UNSIGNED"|) by { UnsignedBigintArmReads(len, rest); }
    assert NotLetter(tail) by { LenRead(len, " UNSIGNED" + rest); }
    FirstIsBigintArm(lex);
    BigintDecides(lex, tail, UnsignedBigint(len), |"BIGINT" + LenText(len) + " UNSIGNED"|);
  }

  /** The alternative for `BOOL` reads its text. */
  lemma {:induction false} BoolArmReads(rest: seq<char>)
    requires Delim(rest)
    ensures BoolType("BOOL" + (rest)) == Done(Bool, |"BOOL"|)
  {
    DelimRest(rest);
    BoolRead(rest);
  }


  /** `type_identifier` reads the text of `Bool` back, and no more. */
  lemma {:induction false} BoolRoundTrip(lex: Lexicon, rest: seq<char>)
    requires Delim(rest)
    ensures TypeIdentifier(lex, "BOOL" + rest) == Done(Bool, |"BOOL"|)
  {
    var tail := rest;
    assert "BOOL" + rest == "BOOL" + tail;
    assert BoolType("BOOL" + tail) == Done(Bool, |"BOOL"|) by { BoolArmReads(rest); }
    assert NotLetter(tail) by {
      DelimRest(rest);
    }
    FirstIsBoolArm(lex);
    BoolDecides(lex, tail, Bool, |"BOOL"|);
  }

  /** The alternative for `DATETIME LenText(len)` reads its text. */
  lemma {:induction false} DateTimeArmReads(len: Option<u16>, rest: seq<char>)
    requires Delim(rest)
    ensures DateTimeType("DATETIME" + (LenText(len) + rest)) == Done(DateTime(len), |"DATETIME" + LenText(len)|)
  {
    DelimRest(rest);
    LenRead(len, rest);
    DateTimeRead(len, rest);
  }


  /** `type_identifier` reads the text of `DateTime(len)` back, and no more. */
  lemma {:induction false} DateTimeRoundTrip(lex: Lexicon, len: Option<u16>, rest: seq<char>)
    requires Delim(rest)
    ensures TypeIdentifier(lex, "DATETIME" + LenText(len) + rest) == Done(DateTime(len), |"DATETIME" + LenText(len)|)
  {
    var tail := LenText(len) + rest;
    assert "DATETIME" + LenText(len) + rest == "DATETIME" + tail;
    assert DateTimeType("DATETIME" + tail) == Done(DateTime(len), |"DATETIME" + LenText(len)|) by { DateTimeArmReads(len, rest); }
    assert NotLetter(tail) by {
      DelimRest(rest);
      LenRead(len, rest);
    }
    FirstIsDateTimeArm(lex);
    DatetimeDecides(lex, tail, DateTime(len), |"DATETIME" + LenText(len)|);
  }

  /** The alternative for `DATE` reads its text. */
  lemma {:induction false} DateArmReads(rest: seq<char>)
    requires Delim(rest)
    ensures KeywordType("date", Date, "DATE" + (rest)) == Done(Date, |"DATE"|)
  {
    DelimRest(rest);
    KwOpens("DATE", rest, "date");
  }


  /** `type_identifier` reads the text of `Date` back, and no more. */
  lemma {:induction false} DateRoundTrip(lex: Lexicon, rest: seq<char>)
    requires Delim(rest)
    ensures TypeIdentifier(lex, "DATE" + rest) == Done(Date, |"DATE"|)
  {
    var tail := rest;
    assert "DATE" + rest == "DATE" + tail;
    assert KeywordType("date", Date, "DATE" + tail) == Done(Date, |"DATE"|) by { DateArmReads(rest); }
    assert NotLetter(tail) by {
      DelimRest(rest);
    }
    FirstIsDateArm(lex);
    DateDecides(lex, tail, Date, |"DATE"|);
  }

  /** The alternative for `DOUBLE` reads its text. */
  lemma {:induction false} DoubleArmReads(rest: seq<char>)
    requires Delim(rest)
    ensures DoubleType("DOUBLE" + (rest)) == Done(Double, |"DOUBLE"|)
  {
    DelimRest(rest);
    DoubleRead(rest);
  }


  /** `type_identifier` reads the text of `Double` back, and no more. */
  lemma {:induction false} DoubleRoundTrip(lex: Lexicon, rest: seq<char>)
    requires Delim(rest)
    ensures TypeIdentifier(lex, "DOUBLE" + rest) == Done(Double, |"DOUBLE"|)
  {
    var tail := rest;
    assert "DOUBLE" + rest == "DOUBLE" + tail;
    assert DoubleType("DOUBLE" + tail) == Done(Double, |"DOUBLE"|) by { DoubleArmReads(rest); }
    assert NotLetter(tail) by {
      DelimRest(rest);
    }
    FirstIsDoubleArm(lex);
    DoubleDecides(lex, tail, Double, |"DOUBLE"|);
  }

  /** The alternative for `NUMERIC` reads its text. */
  lemma {:induction false} NumericPlainArmReads(rest: seq<char>)
    requires Delim(rest)
    ensures NumericType("NUMERIC" + (rest)) == Done(Numeric(None), |"NUMERIC"|)
  {
    DelimRest(rest);
    NumericRead(rest);
  }


  /** `type_identifier` reads the text of `Numeric(None)` back, and no more. */
  lemma {:induction false} NumericPlainRoundTrip(lex: Lexicon, rest: seq<char>)
    requires Delim(rest)
    ensures TypeIdentifier(lex, "NUMERIC" + rest) == Done(Numeric(None), |"NUMERIC"|)
  {
    var tail := rest;
    assert "NUMERIC" + rest == "NUMERIC" + tail;
    assert NumericType("NUMERIC" + tail) == Done(Numeric(None), |"NUMERIC"|) by { NumericPlainArmReads(rest); }
    assert NotLetter(tail) by {
      DelimRest(rest);
    }
    FirstIsNumericArm(lex);
    NumericDecides(lex, tail, Numeric(None), |"NUMERIC"|);
  }

  /** The alternative for `NUMERIC PrecisionText(p, sc)` reads its text. */
  lemma {:induction false} NumericPreciseArmReads(p: u16, sc: Option<u8>, rest: seq<char>)
    requires Delim(rest)
    ensures NumericType("NUMERIC" + (PrecisionText(p, sc) + rest)) == Done(Numeric(Some((p, sc))), |"NUMERIC" + PrecisionText(p, sc)|)
  {
    NumericPrecisionRead(p, sc, rest);
  }


  /** `type_identifier` reads the text of `Numeric(Some((p, sc)))` back, and no more. */
  lemma {:induction false} NumericPreciseRoundTrip(lex: Lexicon, p: u16, sc: Option<u8>, rest: seq<char>)
    requires Delim(rest)
    ensures TypeIdentifier(lex, "NUMERIC" + PrecisionText(p, sc) + rest) == Done(Numeric(Some((p, sc))), |"NUMERIC" + PrecisionText(p, sc)|)
  {
    var tail := PrecisionText(p, sc) + rest;
    assert "NUMERIC" + PrecisionText(p, sc) + rest == "NUMERIC" + tail;
    assert NumericType("NUMERIC" + tail) == Done(Numeric(Some((p, sc))), |"NUMERIC" + PrecisionText(p, sc)|) by { NumericPreciseArmReads(p, sc, rest); }
    assert NotLetter(tail) by { assert tail[0] == '('; }
    FirstIsNumericArm(lex);
    NumericDecides(lex, tail, Numeric(Some((p, sc))), |"NUMERIC" + PrecisionText(p, sc)|);
  }

  /** The alternative for `FLOAT` reads its text. */
  lemma {:induction false} FloatArmReads(rest: seq<char>)
    requires Delim(rest)
    ensures FloatType("FLOAT" + (rest)) == Done(Float, |"FLOAT"|)
  {
    DelimRest(rest);
    FloatRead(rest);
  }


  /** `type_identifier` reads the text of `Float` back, and no more. */
  lemma {:induction false} FloatRoundTrip(lex: Lexicon, rest: seq<char>)
    requires Delim(rest)
    ensures TypeIdentifier(lex, "FLOAT" + rest) == Done(Float, |"FLOAT"|)
  {
    var tail := rest;
    assert "FLOAT" + rest == "FLOAT" + tail;
    assert FloatType("FLOAT" + tail) == Done(Float, |"FLOAT"|) by { FloatArmReads(rest); }
    assert NotLetter(tail) by {
      DelimRest(rest);
    }
    FirstIsFloatArm(lex);
    FloatDecides(lex, tail, Float, |"FLOAT"|);
  }

  /** The alternative for `REAL` reads its text. */
  lemma {:induction false} RealArmReads(rest: seq<char>)
    requires Delim(rest)
    ensures RealType("REAL" + (rest)) == Done(Real, |"REAL"|)
  {
    DelimRest(rest);
    RealRead(rest);
  }


  /** `type_identifier` reads the text of `Real` back, and no more. */
  lemma {:induction false} RealRoundTrip(lex: Lexicon, rest: seq<char>)
    requires Delim(rest)
    ensures TypeIdentifier(lex, "REAL" + rest) == Done(Real, |"REAL"|)
  {
    var tail := rest;
    assert "REAL" + rest == "REAL" + tail;
    assert RealType("REAL" + tail) == Done(Real, |"REAL"|) by { RealArmReads(rest); }
    assert NotLetter(tail) by {
      DelimRest(rest);
    }
    FirstIsRealArm(lex);
    RealDecides(lex, tail, Real, |"REAL"|);
  }

  /** The alternative for `TEXT` reads its text. */
  lemma {:induction false} TextArmReads(rest: seq<char>)
    requires Delim(rest)
    ensures KeywordType("text", Text, "TEXT" + (rest)) == Done(Text, |"TEXT"|)
  {
    DelimRest(rest);
    KwOpens("TEXT", rest, "text");
  }


  /** `type_identifier` reads the text of `Text` back, and no more. */
  lemma {:induction false} TextRoundTrip(lex: Lexicon, rest: seq<char>)
    requires Delim(rest)
    ensures TypeIdentifier(lex, "TEXT" + rest) == Done(Text, |"TEXT"|)
  {
    var tail := rest;
    assert "TEXT" + rest == "TEXT" + tail;
    assert KeywordType("text", Text, "TEXT" + tail) == Done(Text, |"TEXT"|) by { TextArmReads(rest); }
    assert NotLetter(tail) by {
      DelimRest(rest);
    }
    FirstIsTextArm(lex);
    TextDecides(lex, tail, Text, |"TEXT"|);
  }

  /** The alternative for `TIMESTAMP WITH TIME ZONE` reads its text. */
  lemma {:induction false} TimestampTzArmReads(rest: seq<char>)
    requires Delim(rest)
    ensures TimestampTzType("TIMESTAMP" + (" WITH TIME ZONE" + rest)) == Done(TimestampTz, |"TIMESTAMP WITH TIME ZONE"|)
  {
    TimestampTzRead(rest);
  }


  /** `type_identifier` reads the text of `TimestampTz` back, and no more. */
  lemma {:induction false} TimestampTzRoundTrip(lex: Lexicon, rest: seq<char>)
    requires Delim(rest)
    ensures TypeIdentifier(lex, "TIMESTAMP WITH TIME ZONE" + rest) == Done(TimestampTz, |"TIMESTAMP WITH TIME ZONE"|)
  {
    var tail := " WITH TIME ZONE" + rest;
    assert "TIMESTAMP WITH TIME ZONE" + rest == "TIMESTAMP" + tail;
    assert TimestampTzType("TIMESTAMP" + tail) == Done(TimestampTz, |"TIMESTAMP WITH TIME ZONE"|) by { TimestampTzArmReads(rest); }
    assert NotLetter(tail);
    FirstIsTimestampTzArm(lex);
    TimestampTzDecides(lex, tail, TimestampTz, |"TIMESTAMP WITH TIME ZONE"|);
  }

  /** The alternative for `TIMESTAMP` reads its text, and the alternative before it refuses it. */
  lemma {:induction false} TimestampArmReads(rest: seq<char>)
    requires Delim(rest)
    ensures TimestampTzType("TIMESTAMP" + (rest)).Fail?
    ensures TimestampType("TIMESTAMP" + (rest)) == Done(Timestamp, |"TIMESTAMP"|)
  {
    DelimRest(rest);
    TimestampRead(rest);
  }


  /** `type_identifier` reads the text of `Timestamp` back, and no more. */
  lemma {:induction false} TimestampRoundTrip(lex: Lexicon, rest: seq<char>)
    requires Delim(rest)
    ensures TypeIdentifier(lex, "TIMESTAMP" + rest) == Done(Timestamp, |"TIMESTAMP"|)
  {
    var tail := rest;
    assert "TIMESTAMP" + rest == "TIMESTAMP" + tail;
    assert TimestampType("TIMESTAMP" + tail) == Done(Timestamp, |"TIMESTAMP"|) by { TimestampArmReads(rest); }
    assert TimestampTzType("TIMESTAMP" + tail).Fail? by { TimestampArmReads(rest); }
    assert NotLetter(tail) by {
      DelimRest(rest);
    }
    FirstIsTimestampTzArm(lex);
    FirstIsTimestampArm(lex);
    TimestampDecides(lex, tail, Timestamp, |"TIMESTAMP"|);
  }

  /** The alternative for `VARCHAR LenText(len)` reads its text. */
  lemma {:induction false} VarcharArmReads(len: Option<u16>, rest: seq<char>)
    requires Delim(rest)
    ensures VarcharType("VARCHAR" + (LenText(len) + rest)) == Done(Varchar(len), |"VARCHAR" + LenText(len)|)
  {
    DelimRest(rest);
    LenRead(len, rest);
    VarcharRead(len, rest);
  }


  /** `type_identifier` reads the text of `Varchar(len)` back, and no more. */
  lemma {:induction false} VarcharRoundTrip(lex: Lexicon, len: Option<u16>, rest: seq<char>)
    requires Delim(rest)
    ensures TypeIdentifier(lex, "VARCHAR" + LenText(len) + rest) == Done(Varchar(len), |"VARCHAR" + LenText(len)|)
  {
    var tail := LenText(len) + rest;
    assert "VARCHAR" + LenText(len) + rest == "VARCHAR" + tail;
    assert VarcharType("VARCHAR" + tail) == Done(Varchar(len), |"VARCHAR" + LenText(len)|) by { VarcharArmReads(len, rest); }
    assert NotLetter(tail) by {
      DelimRest(rest);
      LenRead(len, rest);
    }
    FirstIsVarcharArm(lex);
    VarcharDecides(lex, tail, Varchar(len), |"VARCHAR" + LenText(len)|);
  }

  /** The alternative for `CHAR LenText(len)` reads its text. */
  lemma {:induction false} CharArmReads(len: Option<u16>, rest: seq<char>)
    requires Delim(rest)
    ensures CharType("CHAR" + (LenText(len) + rest)) == Done(Char(len), |"CHAR" + LenText(len)|)
  {
    DelimRest(rest);
    LenRead(len, rest);
    CharRead(len, rest);
  }


  /** `type_identifier` reads the text of `Char(len)` back, and no more. */
  lemma {:induction false} CharRoundTrip(lex: Lexicon, len: Option<u16>, rest: seq<char>)
    requires Delim(rest)
    ensures TypeIdentifier(lex, "CHAR" + LenText(len) + rest) == Done(Char(len), |"CHAR" + LenText(len)|)
  {
    var tail := LenText(len) + rest;
    assert "CHAR" + LenText(len) + rest == "CHAR" + tail;
    assert CharType("CHAR" + tail) == Done(Char(len), |"CHAR" + LenText(len)|) by { CharArmReads(len, rest); }
    assert NotLetter(tail) by {
      DelimRest(rest);
      LenRead(len, rest);
    }
    FirstIsCharArm(lex);
    CharDecides(lex, tail, Char(len), |"CHAR" + LenText(len)|);
  }

  /** The alternative for `TIME` reads its text. */
  lemma {:induction false} TimeArmReads(rest: seq<char>)
    requires Delim(rest)
    ensures TimeType("TIME" + (rest)) == Done(Time, |"TIME"|)
  {
    DelimRest(rest);
    TimeRead(rest);
  }


  /** `type_identifier` reads the text of `Time` back, and no more. */
  lemma {:induction false} TimeRoundTrip(lex: Lexicon, rest: seq<char>)
    requires Delim(rest)
    ensures TypeIdentifier(lex, "TIME" + rest) == Done(Time, |"TIME"|)
  {
    var tail := rest;
    assert "TIME" + rest == "TIME" + tail;
    assert TimeType("TIME" + tail) == Done(Time, |"TIME"|) by { TimeArmReads(rest); }
    assert NotLetter(tail) by {
      DelimRest(rest);
    }
    SecondIsTimeArm();
    TimeDecides(lex, tail, Time, |"TIME"|);
  }

  /** The alternative for `DECIMAL PrecisionText(m, Some(d))` reads its text. */
  lemma {:induction false} DecimalArmReads(m: u8, d: u8, rest: seq<char>)
    requires Delim(rest)
    ensures DecimalOrNumeric("DECIMAL" + (PrecisionText(m, Some(d)) + rest)) == Done(Decimal(m, d), |"DECIMAL" + PrecisionText(m, Some(d))|)
  {
    DecimalRead(m, d, rest);
  }


  /** `type_identifier` reads the text of `Decimal(m, d)` back, and no more. */
  lemma {:induction false} DecimalRoundTrip(lex: Lexicon, m: u8, d: u8, rest: seq<char>)
    requires Delim(rest)
    ensures TypeIdentifier(lex, "DECIMAL" + PrecisionText(m, Some(d)) + rest) == Done(Decimal(m, d), |"DECIMAL" + PrecisionText(m, Some(d))|)
  {
    var tail := PrecisionText(m, Some(d)) + rest;
    assert "DECIMAL" + PrecisionText(m, Some(d)) + rest == "DECIMAL" + tail;
    assert DecimalOrNumeric("DECIMAL" + tail) == Done(Decimal(m, d), |"DECIMAL" + PrecisionText(m, Some(d))|) by { DecimalArmReads(m, d, rest); }
    assert NotLetter(tail) by { assert tail[0] == '('; }
    SecondIsDecimalArm();
    DecimalDecides(lex, tail, Decimal(m, d), |"DECIMAL" + PrecisionText(m, Some(d))|);
  }

  /** The alternative for `BINARY LenText(len)` reads its text. */
  lemma {:induction false} BinaryArmReads(len: Option<u16>, rest: seq<char>)
    requires Delim(rest)
    ensures BinaryType("BINARY" + (LenText(len) + rest)) == Done(Binary(len), |"BINARY" + LenText(len)|)
  {
    DelimRest(rest);
    LenRead(len, rest);
    BinaryRead(len, rest);
  }


  /** `type_identifier` reads the text of `Binary(len)` back, and no more. */
  lemma {:induction false} BinaryRoundTrip(lex: Lexicon, len: Option<u16>, rest: seq<char>)
    requires Delim(rest)
    ensures TypeIdentifier(lex, "BINARY" + LenText(len) + rest) == Done(Binary(len), |"BINARY" + LenText(len)|)
  {
    var tail := LenText(len) + rest;
    assert "BINARY" + LenText(len) + rest == "BINARY" + tail;
    assert BinaryType("BINARY" + tail) == Done(Binary(len), |"BINARY" + LenText(len)|) by { BinaryArmReads(len, rest); }
    assert NotLetter(tail) by {
      DelimRest(rest);
      LenRead(len, rest);
    }
    SecondIsBinaryArm();
    BinaryDecides(lex, tail, Binary(len), |"BINARY" + LenText(len)|);
  }

  /** The alternative for `BLOB` reads its text. */
  lemma {:induction false} BlobArmReads(rest: seq<char>)
    requires Delim(rest)
    ensures KeywordType("blob", Blob, "BLOB" + (rest)) == Done(Blob, |"BLOB"|)
  {
    DelimRest(rest);
    KwOpens("BLOB", rest, "blob");
  }


  /** `type_identifier` reads the text of `Blob` back, and no more. */
  lemma {:induction false} BlobRoundTrip(lex: Lexicon, rest: seq<char>)
    requires Delim(rest)
    ensures TypeIdentifier(lex, "BLOB" + rest) == Done(Blob, |"BLOB"|)
  {
    var tail := rest;
    assert "BLOB" + rest == "BLOB" + tail;
    assert KeywordType("blob", Blob, "BLOB" + tail) == Done(Blob, |"BLOB"|) by { BlobArmReads(rest); }
    assert NotLetter(tail) by {
      DelimRest(rest);
    }
    SecondIsBlobArm();
    BlobDecides(lex, tail, Blob, |"BLOB"|);
  }

  /** The alternative for `LONGBLOB` reads its text. */
  lemma {:induction false} LongblobArmReads(rest: seq<char>)
    requires Delim(rest)
    ensures KeywordType("longblob", Longblob, "LONGBLOB" + (rest)) == Done(Longblob, |"LONGBLOB"|)
  {
    DelimRest(rest);
    KwOpens("LONGBLOB", rest, "longblob");
  }


  /** `type_identifier` reads the text of `Longblob` back, and no more. */
  lemma {:induction false} LongblobRoundTrip(lex: Lexicon, rest: seq<char>)
    requires Delim(rest)
    ensures TypeIdentifier(lex, "LONGBLOB" + rest) == Done(Longblob, |"LONGBLOB"|)
  {
    var tail := rest;
    assert "LONGBLOB" + rest == "LONGBLOB" + tail;
    assert KeywordType("longblob", Longblob, "LONGBLOB" + tail) == Done(Longblob, |"LONGBLOB"|) by { LongblobArmReads(rest); }
    assert NotLetter(tail) by {
      DelimRest(rest);
    }
    SecondIsLongblobArm();
    LongblobDecides(lex, tail, Longblob, |"LONGBLOB"|);
  }

  /** The alternative for `MEDIUMBLOB` reads its text. */
  lemma {:induction false} MediumblobArmReads(rest: seq<char>)
    requires Delim(rest)
    ensures KeywordType("mediumblob", Mediumblob, "MEDIUMBLOB" + (rest)) == Done(Mediumblob, |"MEDIUMBLOB"|)
  {
    DelimRest(rest);
    KwOpens("MEDIUMBLOB", rest, "mediumblob");
  }


  /** `type_identifier` reads the text of `Mediumblob` back, and no more. */
  lemma {:induction false} MediumblobRoundTrip(lex: Lexicon, rest: seq<char>)
    requires Delim(rest)
    ensures TypeIdentifier(lex, "MEDIUMBLOB" + rest) == Done(Mediumblob, |"MEDIUMBLOB"|)
  {
    var tail := rest;
    assert "MEDIUMBLOB" + rest == "MEDIUMBLOB" + tail;
    assert KeywordType("mediumblob", Mediumblob, "MEDIUMBLOB" + tail) == Done(Mediumblob, |"MEDIUMBLOB"|) by { MediumblobArmReads(rest); }
    assert NotLetter(tail) by {
      DelimRest(rest);
    }
    SecondIsMediumblobArm();
    MediumblobDecides(lex, tail, Mediumblob, |"MEDIUMBLOB"|);
  }

  /** The alternative for `MEDIUMTEXT` reads its text. */
  lemma {:induction false} MediumtextArmReads(rest: seq<char>)
    requires Delim(rest)
    ensures KeywordType("mediumtext", Mediumtext, "MEDIUMTEXT" + (rest)) == Done(Mediumtext, |"MEDIUMTEXT"|)
  {
    DelimRest(rest);
    KwOpens("MEDIUMTEXT", rest, "mediumtext");
  }


  /** `type_identifier` reads the text of `Mediumtext` back, and no more. */
  lemma {:induction false} MediumtextRoundTrip(lex: Lexicon, rest: seq<char>)
    requires Delim(rest)
    ensures TypeIdentifier(lex, "MEDIUMTEXT" + rest) == Done(Mediumtext, |"MEDIUMTEXT"|)
  {
    var tail := rest;
    assert "MEDIUMTEXT" + rest == "MEDIUMTEXT" + tail;
    assert KeywordType("mediumtext", Mediumtext, "MEDIUMTEXT" + tail) == Done(Mediumtext, |"MEDIUMTEXT"|) by { MediumtextArmReads(rest); }
    assert NotLetter(tail) by {
      DelimRest(rest);
    }
    SecondIsMediumtextArm();
    MediumtextDecides(lex, tail, Mediumtext, |"MEDIUMTEXT"|);
  }

  /** The alternative for `LONGTEXT` reads its text. */
  lemma {:induction false} LongtextArmReads(rest: seq<char>)
    requires Delim(rest)
    ensures KeywordType("longtext", Longtext, "LONGTEXT" + (rest)) == Done(Longtext, |"LONGTEXT"|)
  {
    DelimRest(rest);
    KwOpens("LONGTEXT", rest, "longtext");
  }


  /** `type_identifier` reads the text of `Longtext` back, and no more. */
  lemma {:induction false} LongtextRoundTrip(lex: Lexicon, rest: seq<char>)
    requires Delim(rest)
    ensures TypeIdentifier(lex, "LONGTEXT" + rest) == Done(Longtext, |"LONGTEXT"|)
  {
    var tail := rest;
    assert "LONGTEXT" + rest == "LONGTEXT" + tail;
    assert KeywordType("longtext", Longtext, "LONGTEXT" + tail) == Done(Longtext, |"LONGTEXT"|) by { LongtextArmReads(rest); }
    assert NotLetter(tail) by {
      DelimRest(rest);
    }
    SecondIsLongtextArm();
    LongtextDecides(lex, tail, Longtext, |"LONGTEXT"|);
  }

  /** The alternative for `TINYBLOB` reads its text. */
  lemma {:induction false} TinyblobArmReads(rest: seq<char>)
    requires Delim(rest)
    ensures KeywordType("tinyblob", Tinyblob, "TINYBLOB" + (rest)) == Done(Tinyblob, |"TINYBLOB"|)
  {
    DelimRest(rest);
    KwOpens("TINYBLOB", rest, "tinyblob");
  }


  /** `type_identifier` reads the text of `Tinyblob` back, and no more. */
  lemma {:induction false} TinyblobRoundTrip(lex: Lexicon, rest: seq<char>)
    requires Delim(rest)
    ensures TypeIdentifier(lex, "TINYBLOB" + rest) == Done(Tinyblob, |"TINYBLOB"|)
  {
    var tail := rest;
    assert "TINYBLOB" + rest == "TINYBLOB" + tail;
    assert KeywordType("tinyblob", Tinyblob, "TINYBLOB" + tail) == Done(Tinyblob, |"TINYBLOB"|) by { TinyblobArmReads(rest); }
    assert NotLetter(tail) by {
      DelimRest(rest);
    }
    SecondIsTinyblobArm();
    TinyblobDecides(lex, tail, Tinyblob, |"TINYBLOB"|);
  }

  /** The alternative for `TINYTEXT` reads its text. */
  lemma {:induction false} TinytextArmReads(rest: seq<char>)
    requires Delim(rest)
    ensures KeywordType("tinytext", Tinytext, "TINYTEXT" + (rest)) == Done(Tinytext, |"TINYTEXT"|)
  {
    DelimRest(rest);
    KwOpens("TINYTEXT", rest, "tinytext");
  }


  /** `type_identifier` reads the text of `Tinytext` back, and no more. */
  lemma {:induction false} TinytextRoundTrip(lex: Lexicon, rest: seq<char>)
    requires Delim(rest)
    ensures TypeIdentifier(lex, "TINYTEXT" + rest) == Done(Tinytext, |"TINYTEXT"|)
  {
    var tail := rest;
    assert "TINYTEXT" + rest == "TINYTEXT" + tail;
    assert KeywordType("tinytext", Tinytext, "TINYTEXT" + tail) == Done(Tinytext, |"TINYTEXT"|) by { TinytextArmReads(rest); }
    assert NotLetter(tail) by {
      DelimRest(rest);
    }
    SecondIsTinytextArm();
    TinytextDecides(lex, tail, Tinytext, |"TINYTEXT"|);
  }

  /** The alternative for `VARBINARY( NatText(n) )` reads its text. */
  lemma {:induction false} VarbinaryArmReads(n: u16, rest: seq<char>)
    requires Delim(rest)
    ensures VarbinaryType("VARBINARY" + ("(" + NatText(n) + ")" + rest)) == Done(Varbinary(n), |"VARBINARY(" + NatText(n) + ")"|)
  {
    VarbinaryRead(n, rest);
  }


  /** `type_identifier` reads the text of `Varbinary(n)` back, and no more. */
  lemma {:induction false} VarbinaryRoundTrip(lex: Lexicon, n: u16, rest: seq<char>)
    requires Delim(rest)
    ensures TypeIdentifier(lex, "VARBINARY(" + NatText(n) + ")" + rest) == Done(Varbinary(n), |"VARBINARY(" + NatText(n) + ")"|)
  {
    var tail := "(" + NatText(n) + ")" + rest;
    assert "VARBINARY(" + NatText(n) + ")" + rest == "VARBINARY" + tail;
    assert VarbinaryType("VARBINARY" + tail) == Done(Varbinary(n), |"VARBINARY(" + NatText(n) + ")"|) by { VarbinaryArmReads(n, rest); }
    assert NotLetter(tail) by { assert tail[0] == '('; }
    SecondIsVarbinaryArm();
    VarbinaryDecides(lex, tail, Varbinary(n), |"VARBINARY(" + NatText(n) + ")"|);
  }

  /** The alternative for `BYTEA` reads its text. */
  lemma {:induction false} ByteArrayArmReads(rest: seq<char>)
    requires Delim(rest)
    ensures KeywordType("bytea", ByteArray, "BYTEA" + (rest)) == Done(ByteArray, |"BYTEA"|)
  {
    DelimRest(rest);
    KwOpens("BYTEA", rest, "bytea");
  }


  /** `type_identifier` reads the text of `ByteArray` back, and no more. */
  lemma {:induction false} ByteArrayRoundTrip(lex: Lexicon, rest: seq<char>)
    requires Delim(rest)
    ensures TypeIdentifier(lex, "BYTEA" + rest) == Done(ByteArray, |"BYTEA"|)
  {
    var tail := rest;
    assert "BYTEA" + rest == "BYTEA" + tail;
    assert KeywordType("bytea", ByteArray, "BYTEA" + tail) == Done(ByteArray, |"BYTEA"|) by { ByteArrayArmReads(rest); }
    assert NotLetter(tail) by {
      DelimRest(rest);
    }
    SecondIsByteArrayArm();
    ByteaDecides(lex, tail, ByteArray, |"BYTEA"|);
  }

  /** The alternative for `MACADDR` reads its text. */
  lemma {:induction false} MacAddrArmReads(rest: seq<char>)
    requires Delim(rest)
    ensures KeywordType("macaddr", MacAddr, "MACADDR" + (rest)) == Done(MacAddr, |"MACADDR"|)
  {
    DelimRest(rest);
    KwOpens("MACADDR", rest, "macaddr");
  }


  /** `type_identifier` reads the text of `MacAddr` back, and no more. */
  lemma {:induction false} MacAddrRoundTrip(lex: Lexicon, rest: seq<char>)
    requires Delim(rest)
    ensures TypeIdentifier(lex, "MACADDR" + rest) == Done(MacAddr, |"MACADDR"|)
  {
    var tail := rest;
    assert "MACADDR" + rest == "MACADDR" + tail;
    assert KeywordType("macaddr", MacAddr, "MACADDR" + tail) == Done(MacAddr, |"MACADDR"|) by { MacAddrArmReads(rest); }
    assert NotLetter(tail) by {
      DelimRest(rest);
    }
    SecondIsMacAddrArm();
    MacaddrDecides(lex, tail, MacAddr, |"MACADDR"|);
  }

  /** The alternative for `INET` reads its text. */
  lemma {:induction false} InetArmReads(rest: seq<char>)
    requires Delim(rest)
    ensures KeywordType("inet", Inet, "INET" + (rest)) == Done(Inet, |"INET"|)
  {
    DelimRest(rest);
    KwOpens("INET", rest, "inet");
  }


  /** `type_identifier` reads the text of `Inet` back, and no more. */
  lemma {:induction false} InetRoundTrip(lex: Lexicon, rest: seq<char>)
    requires Delim(rest)
    ensures TypeIdentifier(lex, "INET" + rest) == Done(Inet, |"INET"|)
  {
    var tail := rest;
    assert "INET" + rest == "INET" + tail;
    assert KeywordType("inet", Inet, "INET" + tail) == Done(Inet, |"INET"|) by { InetArmReads(rest); }
    assert NotLetter(tail) by {
      DelimRest(rest);
    }
    SecondIsInetArm();
    InetDecides(lex, tail, Inet, |"INET"|);
  }

  /** The alternative for `UUID` reads its text. */
  lemma {:induction false} UuidArmReads(rest: seq<char>)
    requires Delim(rest)
    ensures KeywordType("uuid", Uuid, "UUID" + (rest)) == Done(Uuid, |"UUID"|)
  {
    DelimRest(rest);
    KwOpens("UUID", rest, "uuid");
  }


  /** `type_identifier` reads the text of `Uuid` back, and no more. */
  lemma {:induction false} UuidRoundTrip(lex: Lexicon, rest: seq<char>)
    requires Delim(rest)
    ensures TypeIdentifier(lex, "UUID" + rest) == Done(Uuid, |"UUID"|)
  {
    var tail := rest;
    assert "UUID" + rest == "UUID" + tail;
    assert KeywordType("uuid", Uuid, "UUID" + tail) == Done(Uuid, |"UUID"|) by { UuidArmReads(rest); }
    assert NotLetter(tail) by {
      DelimRest(rest);
    }
    SecondIsUuidArm();
    UuidDecides(lex, tail, Uuid, |"UUID"|);
  }

  /** The alternative for `JSONB` reads its text. */
  lemma {:induction false} JsonbArmReads(rest: seq<char>)
    requires Delim(rest)
    ensures KeywordType("jsonb", Jsonb, "JSONB" + (rest)) == Done(Jsonb, |"JSONB"|)
  {
    DelimRest(rest);
    KwOpens("JSONB", rest, "jsonb");
  }


  /** `type_identifier` reads the text of `Jsonb` back, and no more. */
  lemma {:induction false} JsonbRoundTrip(lex: Lexicon, rest: seq<char>)
    requires Delim(rest)
    ensures TypeIdentifier(lex, "JSONB" + rest) == Done(Jsonb, |"JSONB"|)
  {
    var tail := rest;
    assert "JSONB" + rest == "JSONB" + tail;
    assert KeywordType("jsonb", Jsonb, "JSONB" + tail) == Done(Jsonb, |"JSONB"|) by { JsonbArmReads(rest); }
    assert NotLetter(tail) by {
      DelimRest(rest);
    }
    SecondIsJsonbArm();
    JsonbDecides(lex, tail, Jsonb, |"JSONB"|);
  }

  /** The alternative for `JSON` reads its text. */
  lemma {:induction false} JsonArmReads(rest: seq<char>)
    requires Delim(rest)
    ensures KeywordType("json", Json, "JSON" + (rest)) == Done(Json, |"JSON"|)
  {
    DelimRest(rest);
    KwOpens("JSON", rest, "json");
  }


  /** `type_identifier` reads the text of `Json` back, and no more. */
  lemma {:induction false} JsonRoundTrip(lex: Lexicon, rest: seq<char>)
    requires Delim(rest)
    ensures TypeIdentifier(lex, "JSON" + rest) == Done(Json, |"JSON"|)
  {
    var tail := rest;
    assert "JSON" + rest == "JSON" + tail;
    assert KeywordType("json", Json, "JSON" + tail) == Done(Json, |"JSON"|) by { JsonArmReads(rest); }
    assert NotLetter(tail) by {
      DelimRest(rest);
    }
    SecondIsJsonArm();
    JsonDecides(lex, tail, Json, |"JSON"|);
  }

  /** The alternative for `SERIAL` reads its text. */
  lemma {:induction false} SerialArmReads(rest: seq<char>)
    requires Delim(rest)
    ensures KeywordType("serial", Serial, "SERIAL" + (rest)) == Done(Serial, |"SERIAL"|)
  {
    DelimRest(rest);
    KwOpens("SERIAL", rest, "serial");
  }


  /** `type_identifier` reads the text of `Serial` back, and no more. */
  lemma {:induction false} SerialRoundTrip(lex: Lexicon, rest: seq<char>)
    requires Delim(rest)
    ensures TypeIdentifier(lex, "SERIAL" + rest) == Done(Serial, |"SERIAL"|)
  {
    var tail := rest;
    assert "SERIAL" + rest == "SERIAL" + tail;
    assert KeywordType("serial", Serial, "SERIAL" + tail) == Done(Serial, |"SERIAL"|) by { SerialArmReads(rest); }
    assert NotLetter(tail) by {
      DelimRest(rest);
    }
    SecondIsSerialArm();
    SerialDecides(lex, tail, Serial, |"SERIAL"|);
  }

  /** The alternative for `BIGSERIAL` reads its text. */
  lemma {:induction false} BigSerialArmReads(rest: seq<char>)
    requires Delim(rest)
    ensures KeywordType("bigserial", BigSerial, "BIGSERIAL" + (rest)) == Done(BigSerial, |"BIGSERIAL"|)
  {
    DelimRest(rest);
    KwOpens("BIGSERIAL", rest, "bigserial");
  }


  /** `type_identifier` reads the text of `BigSerial` back, and no more. */
  lemma {:induction false} BigSerialRoundTrip(lex: Lexicon, rest: seq<char>)
    requires Delim(rest)
    ensures TypeIdentifier(lex, "BIGSERIAL" + rest) == Done(BigSerial, |"BIGSERIAL"|)
  {
    var tail := rest;
    assert "BIGSERIAL" + rest == "BIGSERIAL" + tail;
    assert KeywordType("bigserial", BigSerial, "BIGSERIAL" + tail) == Done(BigSerial, |"BIGSERIAL"|) by { BigSerialArmReads(rest); }
    assert NotLetter(tail) by {
      DelimRest(rest);
    }
    SecondIsBigSerialArm();
    BigserialDecides(lex, tail, BigSerial, |"BIGSERIAL"|);
  }

  /** The alternative for `VARBIT LenText(len)` reads its text. */
  lemma {:induction false} VarbitArmReads(len: Option<u16>, rest: seq<char>)
    requires Delim(rest)
    ensures VarbitType("VARBIT" + (LenText(len) + rest)) == Done(Varbit(len), |"VARBIT" + LenText(len)|)
  {
    DelimRest(rest);
    LenRead(len, rest);
    VarbitRead(len, rest);
  }


  /** `type_identifier` reads the text of `Varbit(len)` back, and no more. */
  lemma {:induction false} VarbitRoundTrip(lex: Lexicon, len: Option<u16>, rest: seq<char>)
    requires Delim(rest)
    ensures TypeIdentifier(lex, "VARBIT" + LenText(len) + rest) == Done(Varbit(len), |"VARBIT" + LenText(len)|)
  {
    var tail := LenText(len) + rest;
    assert "VARBIT" + LenText(len) + rest == "VARBIT" + tail;
    assert VarbitType("VARBIT" + tail) == Done(Varbit(len), |"VARBIT" + LenText(len)|) by { VarbitArmReads(len, rest); }
    assert NotLetter(tail) by {
      DelimRest(rest);
      LenRead(len, rest);
    }
    SecondIsVarbitArm();
    VarbitDecides(lex, tail, Varbit(len), |"VARBIT" + LenText(len)|);
  }

  /** The alternative for `BIT LenText(len)` reads its text, and the alternative before it refuses it. */
  lemma {:induction false} BitArmReads(len: Option<u16>, rest: seq<char>)
    requires Delim(rest)
    ensures VarbitType("BIT" + (LenText(len) + rest)).Fail?
    ensures BitType("BIT" + (LenText(len) + rest)) == Done(Bit(len), |"BIT" + LenText(len)|)
  {
    DelimRest(rest);
    LenRead(len, rest);
    BitRead(len, rest);
  }


  /** `type_identifier` reads the text of `Bit(len)` back, and no more. */
  lemma {:induction false} BitRoundTrip(lex: Lexicon, len: Option<u16>, rest: seq<char>)
    requires Delim(rest)
    ensures TypeIdentifier(lex, "BIT" + LenText(len) + rest) == Done(Bit(len), |"BIT" + LenText(len)|)
  {
    var tail := LenText(len) + rest;
    assert "BIT" + LenText(len) + rest == "BIT" + tail;
    assert BitType("BIT" + tail) == Done(Bit(len), |"BIT" + LenText(len)|) by { BitArmReads(len, rest); }
    assert VarbitType("BIT" + tail).Fail? by { BitArmReads(len, rest); }
    assert NotLetter(tail) by {
      DelimRest(rest);
      LenRead(len, rest);
    }
    SecondIsVarbitArm();
    SecondIsBitArm();
    BitDecides(lex, tail, Bit(len), |"BIT" + LenText(len)|);
  }

  // ---------------------------------------------------------------------
  // The round trip

  lemma {:induction false} TinyintTextRoundTrip(lex: Lexicon, t: SqlType, fmt: L.RealFormat, rest: seq<char>)
    requires t.Tinyint? && Delim(rest)
    ensures TypeIdentifier(lex, TypeText(t, fmt) + rest) == Done(t, |TypeText(t, fmt)|)
  {
    assert TypeText(t, fmt) == "TINYINT" + LenText(t.tinyintLen);
    TinyintRoundTrip(lex, t.tinyintLen, rest);
  }

  lemma {:induction false} UnsignedTinyintTextRoundTrip(lex: Lexicon, t: SqlType, fmt: L.RealFormat, rest: seq<char>)
    requires t.UnsignedTinyint? && Delim(rest)
    ensures TypeIdentifier(lex, TypeText(t, fmt) + rest) == Done(t, |TypeText(t, fmt)|)
  {
    assert TypeText(t, fmt) == "TINYINT" + LenText(t.utinyintLen) + " UNSIGNED";
    UnsignedTinyintRoundTrip(lex, t.utinyintLen, rest);
  }

  lemma {:induction false} SmallintTextRoundTrip(lex: Lexicon, t: SqlType, fmt: L.RealFormat, rest: seq<char>)
    requires t.Smallint? && Delim(rest)
    ensures TypeIdentifier(lex, TypeText(t, fmt) + rest) == Done(t, |TypeText(t, fmt)|)
  {
    assert TypeText(t, fmt) == "SMALLINT" + LenText(t.smallintLen);
    SmallintRoundTrip(lex, t.smallintLen, rest);
  }

  lemma {:induction false} UnsignedSmallintTextRoundTrip(lex: Lexicon, t: SqlType, fmt: L.RealFormat, rest: seq<char>)
    requires t.UnsignedSmallint? && Delim(rest)
    ensures TypeIdentifier(lex, TypeText(t, fmt) + rest) == Done(t, |TypeText(t, fmt)|)
  {
    assert TypeText(t, fmt) == "SMALLINT" + LenText(t.usmallintLen) + " UNSIGNED";
    UnsignedSmallintRoundTrip(lex, t.usmallintLen, rest);
  }

  lemma {:induction false} IntTextRoundTrip(lex: Lexicon, t: SqlType, fmt: L.RealFormat, rest: seq<char>)
    requires t.Int? && Delim(rest)
    ensures TypeIdentifier(lex, TypeText(t, fmt) + rest) == Done(t, |TypeText(t, fmt)|)
  {
    assert TypeText(t, fmt) == "INT" + LenText(t.intLen);
    IntRoundTrip(lex, t.intLen, rest);
  }

  lemma {:induction false} UnsignedIntTextRoundTrip(lex: Lexicon, t: SqlType, fmt: L.RealFormat, rest: seq<char>)
    requires t.UnsignedInt? && Delim(rest)
    ensures TypeIdentifier(lex, TypeText(t, fmt) + rest) == Done(t, |TypeText(t, fmt)|)
  {
    assert TypeText(t, fmt) == "INT" + LenText(t.uintLen) + " UNSIGNED";
    UnsignedIntRoundTrip(lex, t.uintLen, rest);
  }

  lemma {:induction false} BigintTextRoundTrip(lex: Lexicon, t: SqlType, fmt: L.RealFormat, rest: seq<char>)
    requires t.Bigint? && Delim(rest)
    ensures TypeIdentifier(lex, TypeText(t, fmt) + rest) == Done(t, |TypeText(t, fmt)|)
  {
    assert TypeText(t, fmt) == "BIGINT" + LenText(t.bigintLen);
    BigintRoundTrip(lex, t.bigintLen, rest);
  }

  lemma {:induction false} UnsignedBigintTextRoundTrip(lex: Lexicon, t: SqlType, fmt: L.RealFormat, rest: seq<char>)
    requires t.UnsignedBigint? && Delim(rest)
    ensures TypeIdentifier(lex, TypeText(t, fmt) + rest) == Done(t, |TypeText(t, fmt)|)
  {
    assert TypeText(t, fmt) == "BIGINT" + LenText(t.ubigintLen) + " UNSIGNED";
    UnsignedBigintRoundTrip(lex, t.ubigintLen, rest);
  }

  lemma {:induction false} BoolTextRoundTrip(lex: Lexicon, t: SqlType, fmt: L.RealFormat, rest: seq<char>)
    requires t.Bool? && Delim(rest)
    ensures TypeIdentifier(lex, TypeText(t, fmt) + rest) == Done(t, |TypeText(t, fmt)|)
  {
    assert TypeText(t, fmt) == "BOOL";
    BoolRoundTrip(lex, rest);
  }

  lemma {:induction false} DateTimeTextRoundTrip(lex: Lexicon, t: SqlType, fmt: L.RealFormat, rest: seq<char>)
    requires t.DateTime? && Delim(rest)
    ensures TypeIdentifier(lex, TypeText(t, fmt) + rest) == Done(t, |TypeText(t, fmt)|)
  {
    assert TypeText(t, fmt) == "DATETIME" + LenText(t.fsp);
    DateTimeRoundTrip(lex, t.fsp, rest);
  }

  lemma {:induction false} DateTextRoundTrip(lex: Lexicon, t: SqlType, fmt: L.RealFormat, rest: seq<char>)
    requires t.Date? && Delim(rest)
    ensures TypeIdentifier(lex, TypeText(t, fmt) + rest) == Done(t, |TypeText(t, fmt)|)
  {
    assert TypeText(t, fmt) == "DATE";
    DateRoundTrip(lex, rest);
  }

  lemma {:induction false} DoubleTextRoundTrip(lex: Lexicon, t: SqlType, fmt: L.RealFormat, rest: seq<char>)
    requires t.Double? && Delim(rest)
    ensures TypeIdentifier(lex, TypeText(t, fmt) + rest) == Done(t, |TypeText(t, fmt)|)
  {
    assert TypeText(t, fmt) == "DOUBLE";
    DoubleRoundTrip(lex, rest);
  }

  lemma {:induction false} NumericPlainTextRoundTrip(lex: Lexicon, t: SqlType, fmt: L.RealFormat, rest: seq<char>)
    requires t == Numeric(None) && Delim(rest)
    ensures TypeIdentifier(lex, TypeText(t, fmt) + rest) == Done(t, |TypeText(t, fmt)|)
  {
    assert TypeText(t, fmt) == "NUMERIC";
    NumericPlainRoundTrip(lex, rest);
  }

  lemma {:induction false} NumericPreciseTextRoundTrip(lex: Lexicon, t: SqlType, fmt: L.RealFormat, rest: seq<char>)
    requires t.Numeric? && t.numericPrecision.Some? && Delim(rest)
    ensures TypeIdentifier(lex, TypeText(t, fmt) + rest) == Done(t, |TypeText(t, fmt)|)
  {
    assert TypeText(t, fmt) == "NUMERIC" + PrecisionText(t.numericPrecision.value.0, t.numericPrecision.value.1);
    NumericPreciseRoundTrip(lex, t.numericPrecision.value.0, t.numericPrecision.value.1, rest);
  }

  lemma {:induction false} FloatTextRoundTrip(lex: Lexicon, t: SqlType, fmt: L.RealFormat, rest: seq<char>)
    requires t.Float? && Delim(rest)
    ensures TypeIdentifier(lex, TypeText(t, fmt) + rest) == Done(t, |TypeText(t, fmt)|)
  {
    assert TypeText(t, fmt) == "FLOAT";
    FloatRoundTrip(lex, rest);
  }

  lemma {:induction false} RealTextRoundTrip(lex: Lexicon, t: SqlType, fmt: L.RealFormat, rest: seq<char>)
    requires t.Real? && Delim(rest)
    ensures TypeIdentifier(lex, TypeText(t, fmt) + rest) == Done(t, |TypeText(t, fmt)|)
  {
    assert TypeText(t, fmt) == "REAL";
    RealRoundTrip(lex, rest);
  }

  lemma {:induction false} TextTextRoundTrip(lex: Lexicon, t: SqlType, fmt: L.RealFormat, rest: seq<char>)
    requires t.Text? && Delim(rest)
    ensures TypeIdentifier(lex, TypeText(t, fmt) + rest) == Done(t, |TypeText(t, fmt)|)
  {
    assert TypeText(t, fmt) == "TEXT";
    TextRoundTrip(lex, rest);
  }

  lemma {:induction false} TimestampTzTextRoundTrip(lex: Lexicon, t: SqlType, fmt: L.RealFormat, rest: seq<char>)
    requires t.TimestampTz? && Delim(rest)
    ensures TypeIdentifier(lex, TypeText(t, fmt) + rest) == Done(t, |TypeText(t, fmt)|)
  {
    assert TypeText(t, fmt) == "TIMESTAMP WITH TIME ZONE";
    TimestampTzRoundTrip(lex, rest);
  }

  lemma {:induction false} TimestampTextRoundTrip(lex: Lexicon, t: SqlType, fmt: L.RealFormat, rest: seq<char>)
    requires t.Timestamp? && Delim(rest)
    ensures TypeIdentifier(lex, TypeText(t, fmt) + rest) == Done(t, |TypeText(t, fmt)|)
  {
    assert TypeText(t, fmt) == "TIMESTAMP";
    TimestampRoundTrip(lex, rest);
  }

  lemma {:induction false} VarcharTextRoundTrip(lex: Lexicon, t: SqlType, fmt: L.RealFormat, rest: seq<char>)
    requires t.Varchar? && Delim(rest)
    ensures TypeIdentifier(lex, TypeText(t, fmt) + rest) == Done(t, |TypeText(t, fmt)|)
  {
    assert TypeText(t, fmt) == "VARCHAR" + LenText(t.varcharLen);
    VarcharRoundTrip(lex, t.varcharLen, rest);
  }

  lemma {:induction false} CharTextRoundTrip(lex: Lexicon, t: SqlType, fmt: L.RealFormat, rest: seq<char>)
    requires t.Char? && Delim(rest)
    ensures TypeIdentifier(lex, TypeText(t, fmt) + rest) == Done(t, |TypeText(t, fmt)|)
  {
    assert TypeText(t, fmt) == "CHAR" + LenText(t.charLen);
    CharRoundTrip(lex, t.charLen, rest);
  }

  lemma {:induction false} TimeTextRoundTrip(lex: Lexicon, t: SqlType, fmt: L.RealFormat, rest: seq<char>)
    requires t.Time? && Delim(rest)
    ensures TypeIdentifier(lex, TypeText(t, fmt) + rest) == Done(t, |TypeText(t, fmt)|)
  {
    assert TypeText(t, fmt) == "TIME";
    TimeRoundTrip(lex, rest);
  }

  lemma {:induction false} DecimalTextRoundTrip(lex: Lexicon, t: SqlType, fmt: L.RealFormat, rest: seq<char>)
    requires t.Decimal? && Delim(rest)
    ensures TypeIdentifier(lex, TypeText(t, fmt) + rest) == Done(t, |TypeText(t, fmt)|)
  {
    assert TypeText(t, fmt) == "DECIMAL" + PrecisionText(t.m, Some(t.d));
    DecimalRoundTrip(lex, t.m, t.d, rest);
  }

  lemma {:induction false} BinaryTextRoundTrip(lex: Lexicon, t: SqlType, fmt: L.RealFormat, rest: seq<char>)
    requires t.Binary? && Delim(rest)
    ensures TypeIdentifier(lex, TypeText(t, fmt) + rest) == Done(t, |TypeText(t, fmt)|)
  {
    assert TypeText(t, fmt) == "BINARY" + LenText(t.binaryLen);
    BinaryRoundTrip(lex, t.binaryLen, rest);
  }

  lemma {:induction false} BlobTextRoundTrip(lex: Lexicon, t: SqlType, fmt: L.RealFormat, rest: seq<char>)
    requires t.Blob? && Delim(rest)
    ensures TypeIdentifier(lex, TypeText(t, fmt) + rest) == Done(t, |TypeText(t, fmt)|)
  {
    assert TypeText(t, fmt) == "BLOB";
    BlobRoundTrip(lex, rest);
  }

  lemma {:induction false} LongblobTextRoundTrip(lex: Lexicon, t: SqlType, fmt: L.RealFormat, rest: seq<char>)
    requires t.Longblob? && Delim(rest)
    ensures TypeIdentifier(lex, TypeText(t, fmt) + rest) == Done(t, |TypeText(t, fmt)|)
  {
    assert TypeText(t, fmt) == "LONGBLOB";
    LongblobRoundTrip(lex, rest);
  }

  lemma {:induction false} MediumblobTextRoundTrip(lex: Lexicon, t: SqlType, fmt: L.RealFormat, rest: seq<char>)
    requires t.Mediumblob? && Delim(rest)
    ensures TypeIdentifier(lex, TypeText(t, fmt) + rest) == Done(t, |TypeText(t, fmt)|)
  {
    assert TypeText(t, fmt) == "MEDIUMBLOB";
    MediumblobRoundTrip(lex, rest);
  }

  lemma {:induction false} MediumtextTextRoundTrip(lex: Lexicon, t: SqlType, fmt: L.RealFormat, rest: seq<char>)
    requires t.Mediumtext? && Delim(rest)
    ensures TypeIdentifier(lex, TypeText(t, fmt) + rest) == Done(t, |TypeText(t, fmt)|)
  {
    assert TypeText(t, fmt) == "MEDIUMTEXT";
    MediumtextRoundTrip(lex, rest);
  }

  lemma {:induction false} LongtextTextRoundTrip(lex: Lexicon, t: SqlType, fmt: L.RealFormat, rest: seq<char>)
    requires t.Longtext? && Delim(rest)
    ensures TypeIdentifier(lex, TypeText(t, fmt) + rest) == Done(t, |TypeText(t, fmt)|)
  {
    assert TypeText(t, fmt) == "LONGTEXT";
    LongtextRoundTrip(lex, rest);
  }

  lemma {:induction false} TinyblobTextRoundTrip(lex: Lexicon, t: SqlType, fmt: L.RealFormat, rest: seq<char>)
    requires t.Tinyblob? && Delim(rest)
    ensures TypeIdentifier(lex, TypeText(t, fmt) + rest) == Done(t, |TypeText(t, fmt)|)
  {
    assert TypeText(t, fmt) == "TINYBLOB";
    TinyblobRoundTrip(lex, rest);
  }

  lemma {:induction false} TinytextTextRoundTrip(lex: Lexicon, t: SqlType, fmt: L.RealFormat, rest: seq<char>)
    requires t.Tinytext? && Delim(rest)
    ensures TypeIdentifier(lex, TypeText(t, fmt) + rest) == Done(t, |TypeText(t, fmt)|)
  {
    assert TypeText(t, fmt) == "TINYTEXT";
    TinytextRoundTrip(lex, rest);
  }

  lemma {:induction false} VarbinaryTextRoundTrip(lex: Lexicon, t: SqlType, fmt: L.RealFormat, rest: seq<char>)
    requires t.Varbinary? && Delim(rest)
    ensures TypeIdentifier(lex, TypeText(t, fmt) + rest) == Done(t, |TypeText(t, fmt)|)
  {
    assert TypeText(t, fmt) == "VARBINARY(" + NatText(t.varbinaryLen) + ")";
    VarbinaryRoundTrip(lex, t.varbinaryLen, rest);
  }

  lemma {:induction false} ByteArrayTextRoundTrip(lex: Lexicon, t: SqlType, fmt: L.RealFormat, rest: seq<char>)
    requires t.ByteArray? && Delim(rest)
    ensures TypeIdentifier(lex, TypeText(t, fmt) + rest) == Done(t, |TypeText(t, fmt)|)
  {
    assert TypeText(t, fmt) == "BYTEA";
    ByteArrayRoundTrip(lex, rest);
  }

  lemma {:induction false} MacAddrTextRoundTrip(lex: Lexicon, t: SqlType, fmt: L.RealFormat, rest: seq<char>)
    requires t.MacAddr? && Delim(rest)
    ensures TypeIdentifier(lex, TypeText(t, fmt) + rest) == Done(t, |TypeText(t, fmt)|)
  {
    assert TypeText(t, fmt) == "MACADDR";
    MacAddrRoundTrip(lex, rest);
  }

  lemma {:induction false} InetTextRoundTrip(lex: Lexicon, t: SqlType, fmt: L.RealFormat, rest: seq<char>)
    requires t.Inet? && Delim(rest)
    ensures TypeIdentifier(lex, TypeText(t, fmt) + rest) == Done(t, |TypeText(t, fmt)|)
  {
    assert TypeText(t, fmt) == "INET";
    InetRoundTrip(lex, rest);
  }

  lemma {:induction false} UuidTextRoundTrip(lex: Lexicon, t: SqlType, fmt: L.RealFormat, rest: seq<char>)
    requires t.Uuid? && Delim(rest)
    ensures TypeIdentifier(lex, TypeText(t, fmt) + rest) == Done(t, |TypeText(t, fmt)|)
  {
    assert TypeText(t, fmt) == "UUID";
    UuidRoundTrip(lex, rest);
  }

  lemma {:induction false} JsonbTextRoundTrip(lex: Lexicon, t: SqlType, fmt: L.RealFormat, rest: seq<char>)
    requires t.Jsonb? && Delim(rest)
    ensures TypeIdentifier(lex, TypeText(t, fmt) + rest) == Done(t, |TypeText(t, fmt)|)
  {
    assert TypeText(t, fmt) == "JSONB";
    JsonbRoundTrip(lex, rest);
  }

  lemma {:induction false} JsonTextRoundTrip(lex: Lexicon, t: SqlType, fmt: L.RealFormat, rest: seq<char>)
    requires t.Json? && Delim(rest)
    ensures TypeIdentifier(lex, TypeText(t, fmt) + rest) == Done(t, |TypeText(t, fmt)|)
  {
    assert TypeText(t, fmt) == "JSON";
    JsonRoundTrip(lex, rest);
  }

  lemma {:induction false} SerialTextRoundTrip(lex: Lexicon, t: SqlType, fmt: L.RealFormat, rest: seq<char>)
    requires t.Serial? && Delim(rest)
    ensures TypeIdentifier(lex, TypeText(t, fmt) + rest) == Done(t, |TypeText(t, fmt)|)
  {
    assert TypeText(t, fmt) == "SERIAL";
    SerialRoundTrip(lex, rest);
  }

  lemma {:induction false} BigSerialTextRoundTrip(lex: Lexicon, t: SqlType, fmt: L.RealFormat, rest: seq<char>)
    requires t.BigSerial? && Delim(rest)
    ensures TypeIdentifier(lex, TypeText(t, fmt) + rest) == Done(t, |TypeText(t, fmt)|)
  {
    assert TypeText(t, fmt) == "BIGSERIAL";
    BigSerialRoundTrip(lex, rest);
  }

  lemma {:induction false} VarbitTextRoundTrip(lex: Lexicon, t: SqlType, fmt: L.RealFormat, rest: seq<char>)
    requires t.Varbit? && Delim(rest)
    ensures TypeIdentifier(lex, TypeText(t, fmt) + rest) == Done(t, |TypeText(t, fmt)|)
  {
    assert TypeText(t, fmt) == "VARBIT" + LenText(t.varbitLen);
    VarbitRoundTrip(lex, t.varbitLen, rest);
  }

  lemma {:induction false} BitTextRoundTrip(lex: Lexicon, t: SqlType, fmt: L.RealFormat, rest: seq<char>)
    requires t.Bit? && Delim(rest)
    ensures TypeIdentifier(lex, TypeText(t, fmt) + rest) == Done(t, |TypeText(t, fmt)|)
  {
    assert TypeText(t, fmt) == "BIT" + LenText(t.bitLen);
    BitRoundTrip(lex, t.bitLen, rest);
  }

  /**
   * `type_identifier` reads back the text `Display for SqlType` writes for
   * every type but `ENUM`, consuming exactly that text, whatever follows it
   * that cannot continue a type.
   */
  lemma {:induction false} TypeTextRoundTrip(lex: Lexicon, t: SqlType, fmt: L.RealFormat, rest: seq<char>)
    requires !t.Enum? && Delim(rest)
    ensures TypeIdentifier(lex, TypeText(t, fmt) + rest) == Done(t, |TypeText(t, fmt)|)
  {
    match t
    case Tinyint(_) => TinyintTextRoundTrip(lex, t, fmt, rest);
    case UnsignedTinyint(_) => UnsignedTinyintTextRoundTrip(lex, t, fmt, rest);
    case Smallint(_) => SmallintTextRoundTrip(lex, t, fmt, rest);
    case UnsignedSmallint(_) => UnsignedSmallintTextRoundTrip(lex, t, fmt, rest);
    case Int(_) => IntTextRoundTrip(lex, t, fmt, rest);
    case UnsignedInt(_) => UnsignedIntTextRoundTrip(lex, t, fmt, rest);
    case Bigint(_) => BigintTextRoundTrip(lex, t, fmt, rest);
    case UnsignedBigint(_) => UnsignedBigintTextRoundTrip(lex, t, fmt, rest);
    case Bool => BoolTextRoundTrip(lex, t, fmt, rest);
    case DateTime(_) => DateTimeTextRoundTrip(lex, t, fmt, rest);
    case Date => DateTextRoundTrip(lex, t, fmt, rest);
    case Double => DoubleTextRoundTrip(lex, t, fmt, rest);
    case Numeric(None) => NumericPlainTextRoundTrip(lex, t, fmt, rest);
    case Numeric(Some(_)) => NumericPreciseTextRoundTrip(lex, t, fmt, rest);
    case Float => FloatTextRoundTrip(lex, t, fmt, rest);
    case Real => RealTextRoundTrip(lex, t, fmt, rest);
    case Text => TextTextRoundTrip(lex, t, fmt, rest);
    case TimestampTz => TimestampTzTextRoundTrip(lex, t, fmt, rest);
    case Timestamp => TimestampTextRoundTrip(lex, t, fmt, rest);
    case Varchar(_) => VarcharTextRoundTrip(lex, t, fmt, rest);
    case Char(_) => CharTextRoundTrip(lex, t, fmt, rest);
    case Time => TimeTextRoundTrip(lex, t, fmt, rest);
    case Decimal(_, _) => DecimalTextRoundTrip(lex, t, fmt, rest);
    case Binary(_) => BinaryTextRoundTrip(lex, t, fmt, rest);
    case Blob => BlobTextRoundTrip(lex, t, fmt, rest);
    case Longblob => LongblobTextRoundTrip(lex, t, fmt, rest);
    case Mediumblob => MediumblobTextRoundTrip(lex, t, fmt, rest);
    case Mediumtext => MediumtextTextRoundTrip(lex, t, fmt, rest);
    case Longtext => LongtextTextRoundTrip(lex, t, fmt, rest);
    case Tinyblob => TinyblobTextRoundTrip(lex, t, fmt, rest);
    case Tinytext => TinytextTextRoundTrip(lex, t, fmt, rest);
    case Varbinary(_) => VarbinaryTextRoundTrip(lex, t, fmt, rest);
    case ByteArray => ByteArrayTextRoundTrip(lex, t, fmt, rest);
    case MacAddr => MacAddrTextRoundTrip(lex, t, fmt, rest);
    case Inet => InetTextRoundTrip(lex, t, fmt, rest);
    case Uuid => UuidTextRoundTrip(lex, t, fmt, rest);
    case Jsonb => JsonbTextRoundTrip(lex, t, fmt, rest);
    case Json => JsonTextRoundTrip(lex, t, fmt, rest);
    case Serial => SerialTextRoundTrip(lex, t, fmt, rest);
    case BigSerial => BigSerialTextRoundTrip(lex, t, fmt, rest);
    case Varbit(_) => VarbitTextRoundTrip(lex, t, fmt, rest);
    case Bit(_) => BitTextRoundTrip(lex, t, fmt, rest);
  }

  /**
   * `SqlType::from_str` (common.rs:191-200) is the inverse of `Display` on
   * every type but `ENUM`: the text of a type, alone or followed by what
   * cannot continue it, parses back to that type.
   */
  lemma {:induction false} FromStrReadsDisplay(mysql: Lexicon, t: SqlType, fmt: L.RealFormat, rest: seq<char>)
    requires mysql.dialect == MySQL && !t.Enum? && Delim(rest)
    ensures FromStr(mysql, TypeText(t, fmt) + rest) == Ok(t)
    ensures FromStr(mysql, TypeText(t, fmt)) == Ok(t)
  {
    TypeTextRoundTrip(mysql, t, fmt, rest);
    TypeTextRoundTrip(mysql, t, fmt, []);
    assert TypeText(t, fmt) + [] == TypeText(t, fmt);
  }
}
