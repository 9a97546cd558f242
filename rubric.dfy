/**
 The fixed rubric of the scoring page: fifteen evaluation items, four axes
 per item and the six score levels 0..5 that the model is asked to use.
 */
module Rubric {

  /** The four evaluation axes (keys "A".."D" of every item's score object). */
  datatype Axis = A | B | C | D

  /** Item identifiers run from 1 to ItemCount. */
  const ItemCount: nat := 15

  /** Highest score level of one axis. */
  const MaxLevel: nat := 5

  predicate IsItem(i: int) {
    1 <= i <= ItemCount
  }

  /** The item identifiers as a set. */
  const ItemIds: set<int> := {1, 2, 3, 4, 5, 6, 7, 8, 9, 10, 11, 12, 13, 14, 15}

  /** The item identifiers in item order, 1 to 15. */
  function ItemOrder(): seq<nat> {
    seq(ItemCount, k => k + 1)
  }

  /** The display names of the items, in item order (entry k names item k + 1). */
  const ItemNames: seq<string> := [
    "テーマ設定の妥当性",
    "目的の明確性",
    "論理構成の明確性",
    "根拠・エビデンスの妥当性",
    "質問の具体性",
    "政策提案の実現可能性",
    "行政答弁を引き出す質問力",
    "議会の役割・法的理解",
    "住民視点・説明責任の明瞭性",
    "答弁後のフォロー可能性",
    "文章表現・スピーチ技術",
    "行政との協働姿勢・倫理性",
    "将来志向・イノベーション性",
    "政策横断性・全体視点",
    "議員としての成長・継続性"
  ]

  function ItemName(i: int): string
    requires IsItem(i)
  {
    ItemNames[i - 1]
  }

  /** A score level as explained by the rubric: 0 (not met) up to 5 (fully met). */
  predicate IsScoreLevel(v: int) {
    0 <= v <= MaxLevel
  }

  /** The scores of one item, keyed by axis. */
  type ItemScores = map<Axis, int>

  /** The "scores" object of a reply: item id to that item's axis scores. */
  type ScoreMatrix = map<int, ItemScores>

  /** Every one of the fifteen items has an entry. */
  predicate HasAllItems(m: ScoreMatrix) {
    forall i | 1 <= i <= ItemCount :: i in m
  }

  /** One item's scores as the rubric asks for them: all four axes, each a score level. */
  predicate WellFormedItem(s: ItemScores) {
    && s.Keys == {A, B, C, D}
    && forall a :: a in s ==> IsScoreLevel(s[a])
  }

  /** A complete reply: fifteen items of four axis scores each. */
  predicate WellFormed(m: ScoreMatrix) {
    && HasAllItems(m)
    && forall i | 1 <= i <= ItemCount :: WellFormedItem(m[i])
  }
}
