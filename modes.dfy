/** Persona catalogue of the chat front end: the three mode identifiers and
    the configuration (display name, system prompt, theme colour) each one
    selects. The product persona's prompt is produced by a catalogue
    formatter outside this model; its value is passed in as `productPrompt`. */
module Modes {

  /** The values of the MODES constant. */
  const Product: string := "product"
  const Finance: string := "finance"
  const Stock: string := "stock"

  /** What the switch returns for one mode. */
  datatype ModeConfig = ModeConfig(name: string, systemPrompt: string, themeColor: string)

  const StockName: string := "Stock Expert"
  const FinanceName: string := "Financial Expert"
  const ProductName: string := "Product Assistant"

  const StockColor: string := "#cf1322"
  const FinanceColor: string := "#faad14"
  const ProductColor: string := "#1890ff"

  /** The sentence each expert prompt asks the model to close its answer with. */
  const StockRiskNotice: string := "股市有风险，入市需谨慎。本文内容仅供参考，不作为买卖依据。"
  const FinanceRiskNotice: string := "投资有风险，理财需谨慎。以上建议仅供参考，不构成直接的投资建议。"

  /** The stock analyst's fixed system prompt (a multi-line literal). */
  const StockPrompt: string :=
    "你是一位专业的股票市场分析师和交易专家。\n" +
    "你的专长包括：\n" +
    "1. A股、港股、美股市场分析\n" +
    "2. 技术面分析（K线、均线、成交量、MACD等指标）\n" +
    "3. 基本面分析（公司估值、行业前景、护城河）\n" +
    "4. 市场情绪与资金流向分析\n" +
    "\n" +
    "请基于数据和事实进行客观分析。\n" +
    "在涉及具体股票时，请从多维度进行解读。\n" +
    "请务必在回答末尾添加风险提示：\"" + StockRiskNotice + "\""

  /** The financial adviser's fixed system prompt (a multi-line literal). */
  const FinancePrompt: string :=
    "你是一位资深的财务顾问和投资分析师。\n" +
    "你的专长包括：\n" +
    "1. 财务报表分析（资产负债表、利润表、现金流量表）\n" +
    "2. 投资理财建议（股票、基金、债券、保险）\n" +
    "3. 税务规划\n" +
    "4. 宏观经济形势分析\n" +
    "\n" +
    "请用专业、严谨但通俗易懂的语言回答用户的问题。\n" +
    "在给出建议时，请务必添加风险提示：\"" + FinanceRiskNotice + "\""

  /** getModeConfig: 'stock' and 'finance' select their expert; 'product' and
      every other value fall through to the product assistant. */
  function GetModeConfig(mode: string, productPrompt: string): (r: ModeConfig)
    ensures r in {ModeConfig(StockName, StockPrompt, StockColor),
                  ModeConfig(FinanceName, FinancePrompt, FinanceColor),
                  ModeConfig(ProductName, productPrompt, ProductColor)}
  {
    if mode == Stock then
      ModeConfig(StockName, StockPrompt, StockColor)
    else if mode == Finance then
      ModeConfig(FinanceName, FinancePrompt, FinanceColor)
    else
      ModeConfig(ProductName, productPrompt, ProductColor)
  }

  /** True of the identifiers the switch has a case for. */
  predicate IsKnownMode(mode: string) {
    mode == Product || mode == Finance || mode == Stock
  }

  lemma StockConfig(productPrompt: string)
    ensures GetModeConfig(Stock, productPrompt).name == "Stock Expert"
    ensures GetModeConfig(Stock, productPrompt).themeColor == "#cf1322"
    ensures GetModeConfig(Stock, productPrompt).systemPrompt == StockPrompt
  {
  }

  lemma FinanceConfig(productPrompt: string)
    ensures GetModeConfig(Finance, productPrompt).name == "Financial Expert"
    ensures GetModeConfig(Finance, productPrompt).themeColor == "#faad14"
    ensures GetModeConfig(Finance, productPrompt).systemPrompt == FinancePrompt
  {
    assert Finance != Stock;
  }

  lemma ProductConfig(productPrompt: string)
    ensures GetModeConfig(Product, productPrompt)
      == ModeConfig("Product Assistant", productPrompt, "#1890ff")
  {
    assert Product != Stock && Product != Finance;
  }

  /** Fail closed: anything that is not 'stock' or 'finance', including
      strings outside MODES, gets exactly the product persona. */
  lemma UnknownModeFallsBack(mode: string, productPrompt: string)
    ensures mode != Stock && mode != Finance
        <==> GetModeConfig(mode, productPrompt) == GetModeConfig(Product, productPrompt)
  {
    ProductConfig(productPrompt);
    if mode == Stock { StockConfig(productPrompt); }
    if mode == Finance { FinanceConfig(productPrompt); }
  }

  /** The three identifiers are pairwise distinct. */
  lemma ModesDistinct()
    ensures Product != Finance && Finance != Stock && Product != Stock
  {
    assert Product[0] != Finance[0] && Finance[0] != Stock[0] && Product[0] != Stock[0];
  }

  /** Two modes get the same name, or the same colour, exactly when they
      select the same persona; so the three personas are told apart. */
  lemma PersonasDistinct(m1: string, m2: string, productPrompt: string)
    requires IsKnownMode(m1) && IsKnownMode(m2)
    ensures GetModeConfig(m1, productPrompt).name == GetModeConfig(m2, productPrompt).name <==> m1 == m2
    ensures GetModeConfig(m1, productPrompt).themeColor == GetModeConfig(m2, productPrompt).themeColor <==> m1 == m2
  {
    ModesDistinct();
    assert StockName[0] != FinanceName[0] && FinanceName[0] != ProductName[0] && StockName[0] != ProductName[0];
    assert StockColor[1] != FinanceColor[1] && FinanceColor[1] != ProductColor[1] && StockColor[1] != ProductColor[1];
  }

  /** The expert prompts are literals: the product catalogue does not reach them. */
  lemma ExpertPromptsIgnoreCatalogue(mode: string, p1: string, p2: string)
    requires mode == Stock || mode == Finance
    ensures GetModeConfig(mode, p1) == GetModeConfig(mode, p2)
  {
  }

  /** The product persona's prompt is the catalogue prompt and nothing else. */
  lemma ProductPromptIsCatalogue(mode: string, productPrompt: string)
    requires mode != Stock && mode != Finance
    ensures GetModeConfig(mode, productPrompt).systemPrompt == productPrompt
  {
  }

  /** Each expert prompt ends with its risk notice, in double quotes. */
  lemma ExpertPromptsEndWithRiskNotice()
    ensures |StockPrompt| > |StockRiskNotice| + 1
    ensures StockPrompt[|StockPrompt| - |StockRiskNotice| - 2..] == "\"" + StockRiskNotice + "\""
    ensures |FinancePrompt| > |FinanceRiskNotice| + 1
    ensures FinancePrompt[|FinancePrompt| - |FinanceRiskNotice| - 2..] == "\"" + FinanceRiskNotice + "\""
  {
  }
}
