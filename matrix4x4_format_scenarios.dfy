/** A sample integer matrix: the texts, the widths and the lines both
    printers write for it. */
module Mat4FormatScenarios {
  import opened Decimal
  import opened Text
  import opened Mat4
  import opened Mat4Format
  import opened Mat4FormatProps

  /** [[1, 0, 5, 9], [-23, 325, 24, 4], [7, 8, -5, 1], [-4, 2, 3, 6]]. */
  const Sample: Matrix4x4 := Matrix4x4([1, 0, 5, 9, -23, 325, 24, 4, 7, 8, -5, 1, -4, 2, 3, 6])

  lemma SampleTexts()
    ensures Cells(Sample)
         == [["1", "0", "5", "9"], ["-23", "325", "24", "4"], ["7", "8", "-5", "1"], ["-4", "2", "3", "6"]]
  {
    SampleRow0Texts();
    SampleRow1Texts();
    SampleRow2Texts();
    SampleRow3Texts();
    GridOfCells(Sample, [["1", "0", "5", "9"], ["-23", "325", "24", "4"], ["7", "8", "-5", "1"], ["-4", "2", "3", "6"]]);
  }

  lemma SampleRow0Texts()
    ensures IntToString(Sample.Get(0, 0)) == "1" && IntToString(Sample.Get(0, 1)) == "0" && IntToString(Sample.Get(0, 2)) == "5" && IntToString(Sample.Get(0, 3)) == "9"
  {
  }

  lemma SampleRow1Texts()
    ensures IntToString(Sample.Get(1, 0)) == "-23" && IntToString(Sample.Get(1, 1)) == "325" && IntToString(Sample.Get(1, 2)) == "24" && IntToString(Sample.Get(1, 3)) == "4"
  {
  }

  lemma SampleRow2Texts()
    ensures IntToString(Sample.Get(2, 0)) == "7" && IntToString(Sample.Get(2, 1)) == "8" && IntToString(Sample.Get(2, 2)) == "-5" && IntToString(Sample.Get(2, 3)) == "1"
  {
  }

  lemma SampleRow3Texts()
    ensures IntToString(Sample.Get(3, 0)) == "-4" && IntToString(Sample.Get(3, 1)) == "2" && IntToString(Sample.Get(3, 2)) == "3" && IntToString(Sample.Get(3, 3)) == "6"
  {
  }
  /** Column widths 3, 3, 2, 1, and 3 for every column in the uniform
      printer. */
  lemma SampleWidths()
    ensures ColumnWidths(Sample) == [3, 3, 2, 1]
    ensures UniformWidths(Sample) == [3, 3, 3, 3]
  {
    SampleRow0Texts();
    SampleRow1Texts();
    SampleRow2Texts();
    SampleRow3Texts();
    assert ColumnWidth(Sample, 0, 1) == 1 && ColumnWidth(Sample, 0, 2) == 3 && ColumnWidth(Sample, 0, 3) == 3;
    assert ColumnWidth(Sample, 1, 1) == 1 && ColumnWidth(Sample, 1, 2) == 3 && ColumnWidth(Sample, 1, 3) == 3;
    assert ColumnWidth(Sample, 2, 1) == 1 && ColumnWidth(Sample, 2, 2) == 2 && ColumnWidth(Sample, 2, 3) == 2;
    assert ColumnWidth(Sample, 3, 1) == 1 && ColumnWidth(Sample, 3, 2) == 1 && ColumnWidth(Sample, 3, 3) == 1;
    ColumnsWithinUniform(Sample);
  }

  /** `format_align_rows` on the sample: each field right-aligned to its
      column's width and followed by one space. */
  lemma SampleAligned()
    ensures Layout(Cells(Sample), ColumnWidths(Sample), 4)
         == "|   1   0  5 9 |\n"
          + "| -23 325 24 4 |\n"
          + "|   7   8 -5 1 |\n"
          + "|  -4   2  3 6 |\n"
  {
    LayoutIsLines(Cells(Sample), ColumnWidths(Sample));
    SampleAlignedLine0();
    SampleAlignedLine1();
    SampleAlignedLine2();
    SampleAlignedLine3();
  }

  lemma SampleAlignedLine0()
    ensures Line(Cells(Sample), ColumnWidths(Sample), 0) == "|   1   0  5 9 |\n"
  {
    SampleTexts();
    SampleWidths();
    LineFields(Cells(Sample), ColumnWidths(Sample), 0);
    assert Spaces(1) == " " && Spaces(2) == "  ";
    assert Field("1", 3) == "  1 " && Field("0", 3) == "  0 " && Field("5", 2) == " 5 " && Field("9", 1) == "9 ";
  }

  lemma SampleAlignedLine1()
    ensures Line(Cells(Sample), ColumnWidths(Sample), 1) == "| -23 325 24 4 |\n"
  {
    SampleTexts();
    SampleWidths();
    LineFields(Cells(Sample), ColumnWidths(Sample), 1);
    assert Spaces(1) == " " && Spaces(2) == "  ";
    assert Field("-23", 3) == "-23 " && Field("325", 3) == "325 " && Field("24", 2) == "24 " && Field("4", 1) == "4 ";
  }

  lemma SampleAlignedLine2()
    ensures Line(Cells(Sample), ColumnWidths(Sample), 2) == "|   7   8 -5 1 |\n"
  {
    SampleTexts();
    SampleWidths();
    LineFields(Cells(Sample), ColumnWidths(Sample), 2);
    assert Spaces(1) == " " && Spaces(2) == "  ";
    assert Field("7", 3) == "  7 " && Field("8", 3) == "  8 " && Field("-5", 2) == "-5 " && Field("1", 1) == "1 ";
  }

  lemma SampleAlignedLine3()
    ensures Line(Cells(Sample), ColumnWidths(Sample), 3) == "|  -4   2  3 6 |\n"
  {
    SampleTexts();
    SampleWidths();
    LineFields(Cells(Sample), ColumnWidths(Sample), 3);
    assert Spaces(1) == " " && Spaces(2) == "  ";
    assert Field("-4", 3) == " -4 " && Field("2", 3) == "  2 " && Field("3", 2) == " 3 " && Field("6", 1) == "6 ";
  }

  /** `format_uniform_columns` on the sample: every field three wide and
      followed by one space. */
  lemma SampleUniform()
    ensures Layout(Cells(Sample), UniformWidths(Sample), 4)
         == "|   1   0   5   9 |\n"
          + "| -23 325  24   4 |\n"
          + "|   7   8  -5   1 |\n"
          + "|  -4   2   3   6 |\n"
  {
    LayoutIsLines(Cells(Sample), UniformWidths(Sample));
    SampleUniformLine0();
    SampleUniformLine1();
    SampleUniformLine2();
    SampleUniformLine3();
  }

  lemma SampleUniformLine0()
    ensures Line(Cells(Sample), UniformWidths(Sample), 0) == "|   1   0   5   9 |\n"
  {
    SampleTexts();
    SampleWidths();
    LineFields(Cells(Sample), UniformWidths(Sample), 0);
    assert Spaces(1) == " " && Spaces(2) == "  ";
    assert Field("1", 3) == "  1 " && Field("0", 3) == "  0 " && Field("5", 3) == "  5 " && Field("9", 3) == "  9 ";
  }

  lemma SampleUniformLine1()
    ensures Line(Cells(Sample), UniformWidths(Sample), 1) == "| -23 325  24   4 |\n"
  {
    SampleTexts();
    SampleWidths();
    LineFields(Cells(Sample), UniformWidths(Sample), 1);
    assert Spaces(1) == " " && Spaces(2) == "  ";
    assert Field("-23", 3) == "-23 " && Field("325", 3) == "325 " && Field("24", 3) == " 24 " && Field("4", 3) == "  4 ";
  }

  lemma SampleUniformLine2()
    ensures Line(Cells(Sample), UniformWidths(Sample), 2) == "|   7   8  -5   1 |\n"
  {
    SampleTexts();
    SampleWidths();
    LineFields(Cells(Sample), UniformWidths(Sample), 2);
    assert Spaces(1) == " " && Spaces(2) == "  ";
    assert Field("7", 3) == "  7 " && Field("8", 3) == "  8 " && Field("-5", 3) == " -5 " && Field("1", 3) == "  1 ";
  }

  lemma SampleUniformLine3()
    ensures Line(Cells(Sample), UniformWidths(Sample), 3) == "|  -4   2   3   6 |\n"
  {
    SampleTexts();
    SampleWidths();
    LineFields(Cells(Sample), UniformWidths(Sample), 3);
    assert Spaces(1) == " " && Spaces(2) == "  ";
    assert Field("-4", 3) == " -4 " && Field("2", 3) == "  2 " && Field("3", 3) == "  3 " && Field("6", 3) == "  6 ";
  }
}
