/**
 * The static catalogue of the simulator (constants.ts): the starting metrics
 * of every team, the roster of team names and colours, the badge table and the
 * ten scenarios with three choices each. All of it is constant data; the
 * lemmas at the end check the facts the game engine relies on.
 *
 * Icons and the colour classes of badges are display metadata and are not
 * part of this model.
 */
module Catalogue {
  import opened GameTypes

  const ScenarioCount: nat := 10
  const ChoicesPerScenario: nat := 3

  const InitialRevenue: int := 10000
  const InitialCustomers: int := 0
  const InitialInfrastructure: int := 10
  const InitialBrand: int := 10

  /** The metrics every team starts a game with. */
  function InitialMetrics(): Metrics
  {
    Metrics(InitialRevenue, InitialCustomers, InitialInfrastructure, InitialBrand)
  }

  /** The name and colour given to the team in the same position. */
  datatype TeamConfig = TeamConfig(name: string, color: string)

  function TeamConfigs(): seq<TeamConfig>
  {
    [ TeamConfig("Alpha Corp", "bg-blue-600 border-blue-400"),
      TeamConfig("Beta Ltd", "bg-red-600 border-red-400"),
      TeamConfig("Gamma Inc", "bg-green-600 border-green-400"),
      TeamConfig("Delta Co", "bg-purple-600 border-purple-400") ]
  }

  /** The human-readable part of a badge entry. */
  datatype BadgeDef = BadgeDef(caption: string, description: string)

  /** The badge table, keyed by badge id. */
  function Badges(): map<string, BadgeDef>
  {
    map[
      "UNICORN" := BadgeDef("Unicorn Status", "Achieved $40,000+ Revenue"),
      "TECH_TITAN" := BadgeDef("Tech Titan", "Built 80+ Infrastructure"),
      "VIRAL_SENSATION" := BadgeDef("Viral Sensation", "Acquired 2,500+ Customers"),
      "BRAND_ICON" := BadgeDef("Brand Icon", "Achieved 80+ Brand Awareness"),
      "SCALABLE" := BadgeDef("Scalable Startup", "Infrastructure ready for the big leagues")
    ]
  }

  /**
   * The ten rounds of the game, in play order. The catalogue is stored by
   * position: `ScenarioTextAt`, `ChoiceIdAt`, `ChoiceCaptionAt`,
   * `ChoiceTextAt` and `ImpactAt` list the texts and the impacts of scenario
   * `i` (round `i + 1`, scenario id `i + 1`) and of its choice `k`, in the
   * order of the catalogue.
   */
  function Scenarios(): seq<Scenario>
  {
    seq(ScenarioCount, i requires 0 <= i < ScenarioCount => ScenarioAt(i))
  }

  /** The texts of a scenario. */
  datatype ScenarioText = ScenarioText(title: string, unit: string, description: string)

  /** The longer texts of a choice: its description and its feedback. */
  datatype ChoiceText = ChoiceText(description: string, feedback: string)

  /** The scenario of round `i + 1`; its choices are `ChoiceAt(i, 0)` to `ChoiceAt(i, 2)`. */
  function ScenarioAt(i: nat): (s: Scenario)
    requires i < ScenarioCount
  {
    var text := ScenarioTextAt(i);
    Scenario(i + 1, text.title, text.unit, text.description, [ChoiceAt(i, 0), ChoiceAt(i, 1), ChoiceAt(i, 2)])
  }

  /** Choice `k` of the scenario of round `s + 1`. */
  function ChoiceAt(s: nat, k: nat): Choice
    requires s < ScenarioCount && k < ChoicesPerScenario
  {
    var text := ChoiceTextAt(s, k);
    Choice(ChoiceIdAt(s, k), ChoiceCaptionAt(s, k), text.description, ImpactAt(s, k), text.feedback)
  }

  function ScenarioTextAt(i: nat): ScenarioText
    requires i < ScenarioCount
  {
    if i == 0 then
      ScenarioText("The Digital Leap", "Unit 1: Introduction to E-commerce",
        "Your traditional retail business is seeing declining foot traffic. How do you enter the digital market?")
    else if i == 1 then
      ScenarioText("Defining the Model", "Unit 2: Business Models",
        "You need to decide how you source and sell products. This defines your operational structure.")
    else if i == 2 then
      ScenarioText("Platform Foundation", "Unit 3: Infrastructure",
        "Traffic is growing. Your current setup is crashing. Where do you invest?")
    else if i == 3 then
      ScenarioText("The Mobile Wave", "Unit 3: Mobile Commerce",
        "60% of your visitors are on mobile devices. Bounce rates are high.")
    else if i == 4 then
      ScenarioText("Customer Acquisition", "Unit 4: Marketing Strategy",
        "Organic growth is plateauing. You need a proactive strategy to bring in new customers.")
    else if i == 5 then
      ScenarioText("The Fulfillment Crunch", "Unit 5: Supply Chain Management",
        "Orders are piling up. Your current shipping process is too slow and causing complaints.")
    else if i == 6 then
      ScenarioText("Crossing Borders", "Unit 6: Global E-commerce",
        "International visitors are trying to buy, but shipping and currency are barriers.")
    else if i == 7 then
      ScenarioText("Market Saturation", "Scaling & Competition",
        "A global competitor just entered your niche with lower prices.")
    else if i == 8 then
      ScenarioText("The AI Advantage", "Unit 7: Emerging Technologies",
        "The market is shifting towards hyper-personalization using AI.")
    else
      ScenarioText("Data Breach Scare", "Security & Ethics",
        "A vulnerability was found in a plugin you use. No data lost yet.")
  }

  function ChoiceTextAt(s: nat, k: nat): ChoiceText
    requires s < ScenarioCount && k < ChoicesPerScenario
  {
    if s == 0 && k == 0 then
      ChoiceText("List products on Amazon/eBay. Low cost, high reach, low control.",
        "Immediate sales boost, but you are struggling to build your own brand identity.")
    else if s == 0 && k == 1 then
      ChoiceText("Launch a custom domain store. Higher cost, full control, slower start.",
        "Slow initial sales, but you own the customer data and brand experience.")
    else if s == 0 && k == 2 then
      ChoiceText("A small website plus social media selling.",
        "A balanced start, catching trends early but spreading resources thin.")
    else if s == 1 && k == 0 then
      ChoiceText("Buy stock, warehouse it, ship it. High margin, high risk.",
        "Margins are great, but warehousing costs are eating into cash flow.")
    else if s == 1 && k == 1 then
      ChoiceText("Supplier ships directly. Low risk, low margin, high competition.",
        "Easy to scale product range, but customer complaints about shipping times are up.")
    else if s == 1 && k == 2 then
      ChoiceText("Curated monthly deliveries. Recurring revenue, high churn risk.",
        "Predictable monthly revenue! You need to keep the content fresh to stop cancellations.")
    else if s == 2 && k == 0 then
      ChoiceText("Move to Shopify/BigCommerce. Monthly fee, reliable, less customizable.",
        "Stability is excellent. You launched new features quickly.")
    else if s == 2 && k == 1 then
      ChoiceText("Magento/WooCommerce on own servers. High control, high maintenance.",
        "You spent a lot on developers, but the site is perfectly tailored to your niche.")
    else if s == 2 && k == 2 then
      ChoiceText("Separate front-end/back-end on AWS. Ultimate scale, extremely complex.",
        "It took months to build, effectively pausing growth, but now you can scale infinitely.")
    else if s == 3 && k == 0 then
      ChoiceText("Optimize current site for all screens. Cost effective.",
        "Conversion rate improved across the board. A safe, solid choice.")
    else if s == 3 && k == 1 then
      ChoiceText("Build iOS and Android apps. High engagement, high barrier to entry.",
        "Few people downloaded it, but those who did spend 3x more than web users.")
    else if s == 3 && k == 2 then
      ChoiceText("App-like experience in browser. Fast, modern, indexable.",
        "Great performance boost and SEO benefits without the App Store friction.")
    else if s == 4 && k == 0 then
      ChoiceText("Heavy investment in Google & Social Ads. Immediate traffic.",
        "Traffic spiked immediately! Customer Acquisition Cost is high, but revenue is flowing.")
    else if s == 4 && k == 1 then
      ChoiceText("Blog posts, videos, and organic search focus. Slow burn.",
        "It is slow going, but you are building a loyal audience who trust your brand authority.")
    else if s == 4 && k == 2 then
      ChoiceText("Pay creators to promote your products to their niche audiences.",
        "One viral post did wonders for your brand image, though some traffic was low quality.")
    else if s == 5 && k == 0 then
      ChoiceText("Use a Third-Party Logistics provider. They handle storage and shipping.",
        "Shipping is faster and you have less headache, but your margins took a hit.")
    else if s == 5 && k == 1 then
      ChoiceText("Keep it in-house but scale up. High fixed cost, total control.",
        "You have total control over the unboxing experience, but rent is expensive.")
    else if s == 5 && k == 2 then
      ChoiceText("Invest in robots and software to optimize your current space.",
        "Efficiency is through the roof. You are ready to handle double the volume.")
    else if s == 6 && k == 0 then
      ChoiceText("Ship from home, calculate duties at checkout. High shipping cost.",
        "International sales are happening, but cart abandonment is high due to shipping fees.")
    else if s == 6 && k == 1 then
      ChoiceText("Stock inventory in key international markets (EU, Asia).",
        "Delivery speeds globally rival local shops. You are becoming a global brand.")
    else if s == 6 && k == 2 then
      ChoiceText("Use Amazon Global Selling or Alibaba to reach locals.",
        "Easy entry into new markets, but you are just another commodity on their platform.")
    else if s == 7 && k == 0 then
      ChoiceText("Cut prices to match them. Protect market share, kill margins.",
        "You kept the customers, but you are barely breaking even.")
    else if s == 7 && k == 1 then
      ChoiceText("Focus on premium quality and storytelling. Lose volume, gain value.",
        "You lost bargain hunters, but your loyal fanbase loves the new premium direction.")
    else if s == 7 && k == 2 then
      ChoiceText("Invest in retention and rewards to keep existing users.",
        "Repeat purchase rate skyrocketed. It is cheaper to keep customers than find new ones.")
    else if s == 8 && k == 0 then
      ChoiceText("Dynamic website content based on user behavior.",
        "Conversion rates jumped significantly. Customers feel you \"get\" them.")
    else if s == 8 && k == 1 then
      ChoiceText("24/7 AI customer support to handle queries instantly.",
        "Support costs are down, but some customers are frustrated by talking to robots.")
    else if s == 8 && k == 2 then
      ChoiceText("Forecast demand to optimize stock levels and cash flow.",
        "Stockouts are a thing of the past. Your operational efficiency is elite.")
    else if s == 9 && k == 0 then
      ChoiceText("Fix it quickly without announcing. Low cost, high risk if discovered.",
        "Problem solved cheaply. Hope no one finds out you were vulnerable.")
    else if s == 9 && k == 1 then
      ChoiceText("Halt dev, audit everything, announce commitment to security.",
        "Expensive downtime, but customers trust you more than ever.")
    else
      ChoiceText("Outsource payment processing completely to reduce scope.",
        "You reduced liability, but transaction fees are slightly higher now.")
  }

  /** The id of choice `k` of scenario `s`. */
  function ChoiceIdAt(s: nat, k: nat): string
    requires s < ScenarioCount && k < ChoicesPerScenario
  {
    if s == 0 then
      (if k == 0 then "marketplace" else if k == 1 then "website" else "hybrid")
    else if s == 1 then
      (if k == 0 then "inventory" else if k == 1 then "dropship" else "subscription")
    else if s == 2 then
      (if k == 0 then "saas" else if k == 1 then "opensource" else "cloud")
    else if s == 3 then
      (if k == 0 then "responsive" else if k == 1 then "nativeapp" else "pwa")
    else if s == 4 then
      (if k == 0 then "ads" else if k == 1 then "content" else "influencer")
    else if s == 5 then
      (if k == 0 then "3pl" else if k == 1 then "warehouse" else "automation")
    else if s == 6 then
      (if k == 0 then "crossborder" else if k == 1 then "local_fulfillment" else "marketplaces_global")
    else if s == 7 then
      (if k == 0 then "price" else if k == 1 then "niche" else "loyalty")
    else if s == 8 then
      (if k == 0 then "personalization" else if k == 1 then "chatbots" else "predictive")
    else
      (if k == 0 then "patch" else if k == 1 then "audit" else "cyber")
  }

  /** The label of choice `k` of scenario `s`. */
  function ChoiceCaptionAt(s: nat, k: nat): string
    requires s < ScenarioCount && k < ChoicesPerScenario
  {
    if s == 0 then
      (if k == 0 then "Join a Marketplace"
       else if k == 1 then "Build Own Website"
       else "Hybrid Strategy")
    else if s == 1 then
      (if k == 0 then "Inventory Model"
       else if k == 1 then "Dropshipping"
       else "Subscription Box")
    else if s == 2 then
      (if k == 0 then "SaaS Platform"
       else if k == 1 then "Custom Open Source"
       else "Cloud Native Headless")
    else if s == 3 then
      (if k == 0 then "Responsive Redesign"
       else if k == 1 then "Native App"
       else "Progressive Web App")
    else if s == 4 then
      (if k == 0 then "Paid Advertising Blitz"
       else if k == 1 then "SEO & Content Marketing"
       else "Influencer Partnerships")
    else if s == 5 then
      (if k == 0 then "Outsource to 3PL"
       else if k == 1 then "Lease Bigger Warehouse"
       else "Warehouse Automation")
    else if s == 6 then
      (if k == 0 then "Direct Cross-Border"
       else if k == 1 then "Regional Fulfillment Centers"
       else "Global Marketplaces")
    else if s == 7 then
      (if k == 0 then "Price War"
       else if k == 1 then "Hyper-Niche Branding"
       else "Loyalty Program")
    else if s == 8 then
      (if k == 0 then "AI Personalization Engine"
       else if k == 1 then "Smart Service Bots"
       else "Predictive Inventory AI")
    else
      (if k == 0 then "Quiet Patch"
       else if k == 1 then "Full Security Audit"
       else "Cyber Insurance & 3rd Party")
  }

  /**
   * The position of a choice id in the catalogue, or (10, 0) for an id that
   * is not there. Ids are grouped by length first, so that finding one
   * compares it with only a few others; it exists to prove the ids distinct.
   */
  ghost function PositionOf(id: string): (nat, nat)
  {
    if |id| == 3 then
      (if id == "pwa" then (3, 2) else if id == "ads" then (4, 0) else if id == "3pl" then (5, 0) else (10, 0))
    else if |id| == 4 then
      (if id == "saas" then (2, 0) else (10, 0))
    else if |id| == 5 then
      (if id == "cloud" then (2, 2) else if id == "price" then (7, 0) else if id == "niche" then (7, 1) else if id == "patch" then (9, 0) else if id == "audit" then (9, 1) else if id == "cyber" then (9, 2) else (10, 0))
    else if |id| == 6 then
      (if id == "hybrid" then (0, 2) else (10, 0))
    else if |id| == 7 then
      (if id == "website" then (0, 1) else if id == "content" then (4, 1) else if id == "loyalty" then (7, 2) else (10, 0))
    else if |id| == 8 then
      (if id == "dropship" then (1, 1) else if id == "chatbots" then (8, 1) else (10, 0))
    else if |id| == 9 then
      (if id == "inventory" then (1, 0) else if id == "nativeapp" then (3, 1) else if id == "warehouse" then (5, 1) else (10, 0))
    else if |id| == 10 then
      (if id == "opensource" then (2, 1) else if id == "responsive" then (3, 0) else if id == "influencer" then (4, 2) else if id == "automation" then (5, 2) else if id == "predictive" then (8, 2) else (10, 0))
    else if |id| == 11 then
      (if id == "marketplace" then (0, 0) else if id == "crossborder" then (6, 0) else (10, 0))
    else if |id| == 12 then
      (if id == "subscription" then (1, 2) else (10, 0))
    else if |id| == 15 then
      (if id == "personalization" then (8, 0) else (10, 0))
    else if |id| == 17 then
      (if id == "local_fulfillment" then (6, 1) else (10, 0))
    else if |id| == 19 then
      (if id == "marketplaces_global" then (6, 2) else (10, 0))
    else (10, 0)
  }

  function ImpactAt(s: nat, k: nat): Metrics
    requires s < ScenarioCount && k < ChoicesPerScenario
  {
    if s == 0 && k == 0 then Metrics(5000, 500, 5, 10)
    else if s == 0 && k == 1 then Metrics(1000, 100, 20, 25)
    else if s == 0 && k == 2 then Metrics(3000, 300, 15, 15)
    else if s == 1 && k == 0 then Metrics(8000, 200, 10, 20)
    else if s == 1 && k == 1 then Metrics(4000, 400, 5, 5)
    else if s == 1 && k == 2 then Metrics(6000, 150, 15, 30)
    else if s == 2 && k == 0 then Metrics(2000, 200, 25, 10)
    else if s == 2 && k == 1 then Metrics(1000, 100, 40, 10)
    else if s == 2 && k == 2 then Metrics(0, 0, 50, 5)
    else if s == 3 && k == 0 then Metrics(5000, 500, 10, 10)
    else if s == 3 && k == 1 then Metrics(3000, 100, 30, 40)
    else if s == 3 && k == 2 then Metrics(4500, 400, 20, 20)
    else if s == 4 && k == 0 then Metrics(6000, 1000, 0, 20)
    else if s == 4 && k == 1 then Metrics(2000, 300, 0, 40)
    else if s == 4 && k == 2 then Metrics(4500, 600, 0, 50)
    else if s == 5 && k == 0 then Metrics(3000, 400, 30, 10)
    else if s == 5 && k == 1 then Metrics(2000, 200, 40, 20)
    else if s == 5 && k == 2 then Metrics(1000, 100, 60, 10)
    else if s == 6 && k == 0 then Metrics(3000, 200, 10, 30)
    else if s == 6 && k == 1 then Metrics(5000, 600, 40, 40)
    else if s == 6 && k == 2 then Metrics(4000, 300, 5, 10)
    else if s == 7 && k == 0 then Metrics(8000, 800, 0, -10)
    else if s == 7 && k == 1 then Metrics(4000, -100, 10, 40)
    else if s == 7 && k == 2 then Metrics(5000, 200, 20, 20)
    else if s == 8 && k == 0 then Metrics(6000, 200, 20, 10)
    else if s == 8 && k == 1 then Metrics(2000, 100, 30, -10)
    else if s == 8 && k == 2 then Metrics(4000, 0, 50, 0)
    else if s == 9 && k == 0 then Metrics(1000, 0, 10, 0)
    else if s == 9 && k == 1 then Metrics(-2000, 100, 40, 30)
    else Metrics(-500, 0, 20, 10)
  }


  /** Some field of `m` is below zero. */
  predicate HasNegativeField(m: Metrics)
  {
    m.revenue < 0 || m.customers < 0 || m.infrastructure < 0 || m.brandAwareness < 0
  }

  lemma InitialMetricsValues()
    ensures InitialMetrics() == Metrics(10000, 0, 10, 10)
  {
  }

  /** Four roster entries, with distinct names. */
  lemma TeamConfigsShape()
    ensures |TeamConfigs()| == 4
    ensures forall i, j :: 0 <= i < j < |TeamConfigs()| ==> TeamConfigs()[i].name != TeamConfigs()[j].name
  {
  }

  /** Ten scenarios, numbered 1 to 10 in play order, each offering three choices. */
  lemma ScenarioShape()
    ensures |Scenarios()| == 10
    ensures forall i :: 0 <= i < |Scenarios()| ==> Scenarios()[i].id == i + 1
    ensures forall i :: 0 <= i < |Scenarios()| ==> |Scenarios()[i].choices| == 3
  {
  }

  /** `Scenarios()` holds exactly the positional tables. */
  lemma ScenariosByPosition()
    ensures |Scenarios()| == ScenarioCount
    ensures forall i, k | 0 <= i < ScenarioCount && 0 <= k < ChoicesPerScenario ::
      |Scenarios()[i].choices| == ChoicesPerScenario && Scenarios()[i].choices[k] == ChoiceAt(i, k)
  {
  }

  /** Looking up the id found at a position gives that position back. */
  lemma ChoiceIdPosition(s: nat, k: nat)
    requires s < ScenarioCount && k < ChoicesPerScenario
    ensures PositionOf(ChoiceIdAt(s, k)) == (s, k)
  {
    if s < 4 {
      ChoiceIdPositionLow(s, k);
    } else if s < 7 {
      ChoiceIdPositionMiddle(s, k);
    } else {
      ChoiceIdPositionHigh(s, k);
    }
  }

  lemma ChoiceIdPositionLow(s: nat, k: nat)
    requires s < 4 && k < ChoicesPerScenario
    ensures PositionOf(ChoiceIdAt(s, k)) == (s, k)
  {
  }

  lemma ChoiceIdPositionMiddle(s: nat, k: nat)
    requires 4 <= s < 7 && k < ChoicesPerScenario
    ensures PositionOf(ChoiceIdAt(s, k)) == (s, k)
  {
  }

  lemma ChoiceIdPositionHigh(s: nat, k: nat)
    requires 7 <= s < ScenarioCount && k < ChoicesPerScenario
    ensures PositionOf(ChoiceIdAt(s, k)) == (s, k)
  {
  }

  /** The 30 choice ids of the catalogue are pairwise distinct. */
  lemma ChoiceIdsDistinct()
    ensures forall s1, k1, s2, k2 |
        0 <= s1 < |Scenarios()| && 0 <= k1 < |Scenarios()[s1].choices| &&
        0 <= s2 < |Scenarios()| && 0 <= k2 < |Scenarios()[s2].choices| && (s1, k1) != (s2, k2) ::
      Scenarios()[s1].choices[k1].id != Scenarios()[s2].choices[k2].id
  {
    ScenariosByPosition();
    forall s1, k1, s2, k2 |
        0 <= s1 < |Scenarios()| && 0 <= k1 < |Scenarios()[s1].choices| &&
        0 <= s2 < |Scenarios()| && 0 <= k2 < |Scenarios()[s2].choices| && (s1, k1) != (s2, k2)
      ensures Scenarios()[s1].choices[k1].id != Scenarios()[s2].choices[k2].id
    {
      ChoiceIdPosition(s1, k1);
      ChoiceIdPosition(s2, k2);
    }
  }

  /** The impact table has a negative field at exactly five positions. */
  lemma NegativeImpactPositions()
    ensures forall s, k | 0 <= s < ScenarioCount && 0 <= k < ChoicesPerScenario ::
      HasNegativeField(ImpactAt(s, k)) <==> (s, k) in {(7, 0), (7, 1), (8, 1), (9, 1), (9, 2)}
  {
  }

  /**
   * Exactly five choices of the catalogue carry a negative impact field; see
   * `NegativeChoices` for which ones and by how much.
   */
  lemma NegativeImpacts()
    ensures forall i, k | 0 <= i < |Scenarios()| && 0 <= k < |Scenarios()[i].choices| ::
      HasNegativeField(Scenarios()[i].choices[k].impact) <==> (i, k) in {(7, 0), (7, 1), (8, 1), (9, 1), (9, 2)}
  {
    ScenariosByPosition();
    NegativeImpactPositions();
  }

  /**
   * The five choices with a negative field: Price War and Smart Service Bots
   * lower brand awareness by 10, Hyper-Niche Branding loses 100 customers,
   * and Full Security Audit and Cyber Insurance cost 2000 and 500 of revenue.
   */
  lemma NegativeChoices()
    ensures ChoiceCaptionAt(7, 0) == "Price War" && ImpactAt(7, 0).brandAwareness == -10
    ensures ChoiceCaptionAt(7, 1) == "Hyper-Niche Branding" && ImpactAt(7, 1).customers == -100
    ensures ChoiceCaptionAt(8, 1) == "Smart Service Bots" && ImpactAt(8, 1).brandAwareness == -10
    ensures ChoiceCaptionAt(9, 1) == "Full Security Audit" && ImpactAt(9, 1).revenue == -2000
    ensures ChoiceCaptionAt(9, 2) == "Cyber Insurance & 3rd Party" && ImpactAt(9, 2).revenue == -500
  {
  }
}
