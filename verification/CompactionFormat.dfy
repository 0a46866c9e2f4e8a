// The markup a compaction summary is written in.
module CompactionFormat {
  import opened Text
  import opened SectionLayout
  import opened SummaryText

  const HEADINGS: seq<string> := [
    "## 讨论过的话题",
    "## 群友信息",
    "## 我的承诺、状态和下一步",
    "## 关键约束与决定",
    "## 工具调用结果",
    "## 情绪和氛围",
    "## 下一步"
  ]

  const SPLIT_TURN_PREFIX_OPEN := "[单轮前缀摘要]"
  const SPLIT_TURN_PREFIX_CLOSE := "[/单轮前缀摘要]"

  const COMPACTION_FORMAT := Format(HEADINGS, SPLIT_TURN_PREFIX_OPEN, SPLIT_TURN_PREFIX_CLOSE)

  // The real headings and markers are a format that every result about formats applies to.
  lemma CompactionFormatOk()
    ensures FormatOk(COMPACTION_FORMAT) && |HEADINGS| == 7
  {
    TheHeadingsAreOk();
  }

  lemma TheHeadingsAreOk()
    ensures HeadingsOk(HEADINGS) && |HEADINGS| == 7
  {
    var initials := ['讨', '群', '我', '关', '工', '情', '下'];
    forall k | 0 <= k < |HEADINGS|
      ensures HEADING_MARK <= HEADINGS[k] && '\n' !in HEADINGS[k] && EndsSolid(HEADINGS[k])
      ensures |HEADINGS[k]| > 3 && HEADINGS[k][3] == initials[k]
    {
      HeadingShape(k);
    }
    forall i, j | 0 <= i < j < |HEADINGS| ensures HEADINGS[i] != HEADINGS[j] {
      assert initials[i] != initials[j];
    }
  }

  lemma HeadingShape(k: nat)
    requires k < |HEADINGS|
    ensures HEADING_MARK <= HEADINGS[k] && '\n' !in HEADINGS[k] && EndsSolid(HEADINGS[k])
    ensures |HEADINGS[k]| > 3 && HEADINGS[k][3] == ['讨', '群', '我', '关', '工', '情', '下'][k]
  {
  }
}
