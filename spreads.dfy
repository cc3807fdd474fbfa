/**
  * Spreads: named, ordered lists of card positions. Covers the Spread interface (name, positions,
  * card count), PatternBasedSpread (a name prefix over a position pattern), the two fixed spreads
  * SingleCardSpread and RelationshipFourCardSpread, and the two pattern enumerations.
  */
module Spreads {
  import opened Wrappers
  import opened Text

  /** One position of a spread: a short label (getLabel) and a longer description (CardPosition.java). */
  datatype CardPosition = CardPosition(labelText: string, description: string)

  /** ThreeCardPattern.java. */
  datatype ThreeCardPattern = PastPresentFuture | SituationObstacleAdvice | YouRelationshipOther {
    function DisplayName(): string {
      match this
      case PastPresentFuture => "过去 / 现在 / 未来"
      case SituationObstacleAdvice => "现状 / 困境 /建议"
      case YouRelationshipOther => "你 / 关系 / 对方"
    }

    function Positions(): seq<CardPosition> {
      match this
      case PastPresentFuture => [
        CardPosition("过去", "影响当前问题的过去经历与背景"),
        CardPosition("现在", "当前正在发生的情况与核心问题"),
        CardPosition("未来", "在当前轨迹下可能的发展趋势")]
      case SituationObstacleAdvice => [
        CardPosition("现状", "你当前所处的状态和客观情况"),
        CardPosition("困境", "阻碍、矛盾、压力或需要看见的问题"),
        CardPosition("建议", "对你更有帮助的态度、方向或行动建议")]
      case YouRelationshipOther => [
        CardPosition("你", "你在这段关系中的状态、立场与感受"),
        CardPosition("关系", "当前互动模式与关系氛围"),
        CardPosition("对方", "对方当前的状态、立场或倾向")]
    }
  }

  /** ThreeCardPattern.values(), in declaration order. */
  const ThreeCardPatterns: seq<ThreeCardPattern> :=
    [PastPresentFuture, SituationObstacleAdvice, YouRelationshipOther]

  /** FourCardPattern.java. */
  datatype FourCardPattern =
    | YouOtherRelationshipAdvice
    | SituationObstacleHelpAdvice
    | ProblemCauseSolutionOutcome
    | InnerOuterBlockAdvice
    | TimeLine
    | FireWaterAirEarth
  {
    function DisplayName(): string {
      match this
      case YouOtherRelationshipAdvice => "你 / 对方 / 关系 / 建议"
      case SituationObstacleHelpAdvice => "现状 / 阻碍 / 阻力 / 建议"
      case ProblemCauseSolutionOutcome => "问题 / 成因 / 解决方案 / 结果"
      case InnerOuterBlockAdvice => "内在 / 外在 / 阻碍 /建议"
      case TimeLine => "过去 / 现在 / 未来 / 建议"
      case FireWaterAirEarth => "火 / 水 / 风 / 土"
    }

    function Positions(): seq<CardPosition> {
      match this
      case YouOtherRelationshipAdvice => [
        CardPosition("你", "你在这段关系中的、状态与立场"),
        CardPosition("对方", "对方的感受、态度或潜在倾向"),
        CardPosition("关系", "当前关系的氛围、互动模式或核心议题"),
        CardPosition("建议", "这段关系的未来方向、可采取的行动或态度")]
      case SituationObstacleHelpAdvice => [
        CardPosition("现状", "当前客观情况或你所处的位置"),
        CardPosition("阻碍", "挑战、矛盾、问题源头或阻力"),
        CardPosition("助力", "你可以利用的优势、资源或隐藏支持"),
        CardPosition("建议", "最佳行动方向、态度或可采取的策略")]
      case ProblemCauseSolutionOutcome => [
        CardPosition("问题", "表面的困境、核心议题或正在发生的事件"),
        CardPosition("原因", "产生问题的深层动因"),
        CardPosition("解决方案", "可采取的行动、应对方式或转化思路"),
        CardPosition("结果", "若采取方案后可能出现的走向或发展")]
      case InnerOuterBlockAdvice => [
        CardPosition("内在", "你的内在状态、情绪、心理或潜意识"),
        CardPosition("外在", "外在环境、实际状况、人际交互"),
        CardPosition("阻碍", "造成内外不一致的阻碍或关键矛盾"),
        CardPosition("建议", "如何协调内外、整合力量或前进方向")]
      case TimeLine => [
        CardPosition("过去", "影响当前情况的重要历史因素或模式"),
        CardPosition("现在", "当前事件的核心、此刻的关键能量"),
        CardPosition("未来", "在当前轨迹下最可能的发展趋势"),
        CardPosition("建议", "应采取何种方式应对未来或改变轨迹")]
      case FireWaterAirEarth => [
        CardPosition("火", "动力、意志、行动力、热情"),
        CardPosition("水", "情感、感受、人际关系、直觉"),
        CardPosition("风", "思维、逻辑、学习与沟通"),
        CardPosition("土", "物质、工作、稳定与现实基础")]
    }
  }

  /** FourCardPattern.values(), in declaration order. */
  const FourCardPatterns: seq<FourCardPattern> := [
    YouOtherRelationshipAdvice, SituationObstacleHelpAdvice, ProblemCauseSolutionOutcome,
    InnerOuterBlockAdvice, TimeLine, FireWaterAirEarth]

  /** SpreadPattern: a display name over an ordered list of positions; one of the two enumerations. */
  datatype SpreadPattern = ThreeCard(three: ThreeCardPattern) | FourCard(four: FourCardPattern) {
    function DisplayName(): string {
      match this
      case ThreeCard(p) => p.DisplayName()
      case FourCard(p) => p.DisplayName()
    }

    function Positions(): seq<CardPosition> {
      match this
      case ThreeCard(p) => p.Positions()
      case FourCard(p) => p.Positions()
    }
  }

  /** The positions of SingleCardSpread. */
  const SingleCardPositions: seq<CardPosition> := [CardPosition("主题", "对本次问题或当下状态的整体提示")]

  /** The positions of RelationshipFourCardSpread. */
  const RelationshipFourCardPositions: seq<CardPosition> := [
    CardPosition("你", "你在这段关系中的状态、立场与感受"),
    CardPosition("对方", "对方在这段关系中的状态或态度"),
    CardPosition("关系走向", "在当前互动模式下，关系可能的发展方向"),
    CardPosition("建议", "对你更有帮助的态度和行动模式")]

  /** The separator PatternBasedSpread puts between its prefix and the pattern's name. */
  const NameSeparator: string := "："

  /**
    * A spread. PatternBasedSpread's prefix is None where the Java field is null.
    */
  datatype Spread =
    | SingleCardSpread
    | RelationshipFourCardSpread
    | PatternBasedSpread(namePrefix: Option<string>, pattern: SpreadPattern)
  {
    /** getName(). For a pattern-based spread: the pattern's display name alone when the prefix
        is null or blank, otherwise prefix + "：" + display name. */
    function Name(): (n: string)
      ensures PatternBasedSpread? && (namePrefix.None? || IsBlank(namePrefix.value)) ==>
        n == pattern.DisplayName()
      ensures PatternBasedSpread? && namePrefix.Some? && !IsBlank(namePrefix.value) ==>
        n == namePrefix.value + NameSeparator + pattern.DisplayName()
    {
      match this
      case SingleCardSpread => "单张牌：主题指引"
      case RelationshipFourCardSpread => "四张牌：你 / 对方 / 关系走向 / 建议"
      case PatternBasedSpread(prefix, p) =>
        if prefix.None? || IsBlank(prefix.value) then p.DisplayName()
        else prefix.value + NameSeparator + p.DisplayName()
    }

    /** getPositions(): a pattern-based spread hands out its pattern's positions unchanged. */
    function Positions(): (ps: seq<CardPosition>)
      ensures PatternBasedSpread? ==> ps == pattern.Positions()
    {
      match this
      case SingleCardSpread => SingleCardPositions
      case RelationshipFourCardSpread => RelationshipFourCardPositions
      case PatternBasedSpread(_, p) => p.Positions()
    }

    /** getCardCount(): the default of the Spread interface, the number of positions. */
    function CardCount(): (n: nat)
      ensures n == |Positions()|
    {
      |Positions()|
    }
  }

  /** A pattern-based spread hands out its pattern's positions, and needs one card per
      position of that pattern. */
  lemma PatternBasedAccessors(prefix: Option<string>, p: SpreadPattern)
    ensures PatternBasedSpread(prefix, p).Positions() == p.Positions()
    ensures PatternBasedSpread(prefix, p).CardCount() == |p.Positions()|
  {
  }

  /** One card for the single-card spread, three for a three-card pattern, four for the
      relationship spread and for a four-card pattern. */
  lemma CardCounts(s: Spread)
    ensures s.SingleCardSpread? ==> s.CardCount() == 1
    ensures s.RelationshipFourCardSpread? ==> s.CardCount() == 4
    ensures s.PatternBasedSpread? && s.pattern.ThreeCard? ==> s.CardCount() == 3
    ensures s.PatternBasedSpread? && s.pattern.FourCard? ==> s.CardCount() == 4
  {
    match s
    case SingleCardSpread =>
    case RelationshipFourCardSpread =>
    case PatternBasedSpread(_, ThreeCard(p)) =>
      assert |p.Positions()| == 3;
    case PatternBasedSpread(_, FourCard(p)) =>
      assert |p.Positions()| == 4;
  }

  /** The name of a pattern-based spread always ends with the pattern's display name. */
  lemma NameEndsWithDisplayName(prefix: Option<string>, p: SpreadPattern)
    ensures var n := PatternBasedSpread(prefix, p).Name();
      |n| >= |p.DisplayName()| && n[|n| - |p.DisplayName()|..] == p.DisplayName()
  {
  }

  /** Under one prefix, two pattern-based spreads share a name exactly when their patterns share a
      display name: the names the recommender deduplicates on tell the patterns apart. */
  lemma {:induction false} NamesUnderPrefixInjective(prefix: Option<string>, p: SpreadPattern, q: SpreadPattern)
    ensures PatternBasedSpread(prefix, p).Name() == PatternBasedSpread(prefix, q).Name()
      <==> p.DisplayName() == q.DisplayName()
  {
    var n, m := PatternBasedSpread(prefix, p).Name(), PatternBasedSpread(prefix, q).Name();
    if n == m {
      NameEndsWithDisplayName(prefix, p);
      NameEndsWithDisplayName(prefix, q);
      if !(prefix.None? || IsBlank(prefix.value)) {
        var k := |prefix.value + NameSeparator|;
        assert n[k..] == p.DisplayName();
        assert m[k..] == q.DisplayName();
      }
    }
  }
}
