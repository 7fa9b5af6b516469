/** The rows the in-memory store is seeded with. A sample row carries no id
    and no timestamp: 0 stands in for them until the store stamps the row.
    Long texts are written as concatenations of short pieces, which keeps
    the verifier's work on them small. */
module SampleData {
  import opened Wrappers
  import opened Schema

  function ViralVideoSamples(): seq<ViralVideo> {
    [
      ViralVideo(0, "How I Make "
          + "$8,600/Month in "
          + "Passive Income "
          + "(Work 2 Hours "
          + "Daily)", "TikTok", "https://tiktok.com/sample1", 1200000, 12.5, 94,
        Some("Lost my "
          + "waitressing job "
          + "during "
          + "pandemic. Now I "
          + "make "
          + "$8,600/month "
          + "with affiliate "
          + "marketing "
          + "working just 2 "
          + "hours a day. "
          + "Here's exactly "
          + "how I did it..."),
        Some("#passiveincome "
          + "#affiliatemarketing "
          + "#sidehustle "
          + "#entrepreneurship "
          + "#workfromhome"),
        Some("Hey everyone, "
          + "so I know this "
          + "sounds crazy "
          + "but I actually "
          + "make over "
          + "$8,600 a month "
          + "now in passive "
          + "income..."),
        "processed", 0, 0),
      ViralVideo(0, "5 AI Tools That "
          + "Actually Make "
          + "Money (I Made "
          + "$3,200 This "
          + "Week)", "Instagram", "https://instagram.com/sample2", 890000, 9.8, 87,
        Some("After testing "
          + "50+ AI tools, "
          + "these 5 "
          + "actually "
          + "generate "
          + "income. Tool #3 "
          + "made me $1,200 "
          + "in one day."),
        Some("#aitools "
          + "#generativeai "
          + "#makemoneywithai "
          + "#aiautomation "
          + "#artificialintelligence "
          + "#chatgpt"),
        Some("I've tested "
          + "over 50 "
          + "different AI "
          + "tools and these "
          + "5 are the only "
          + "ones that "
          + "consistently "
          + "generate "
          + "income..."),
        "processed", 0, 0),
      ViralVideo(0, "Wealth Building "
          + "Secrets They "
          + "Don't Want You "
          + "to Know", "YouTube", "https://youtube.com/sample3", 650000, 11.2, 89,
        Some("The wealth "
          + "building "
          + "strategies that "
          + "made me $25K "
          + "last month. "
          + "Most people "
          + "never learn "
          + "these..."),
        Some("#wealthbuilding "
          + "#passiveincome "
          + "#investing "
          + "#financialfreedom "
          + "#makemoneyonline"),
        Some("What I'm about "
          + "to share with "
          + "you are the "
          + "exact wealth "
          + "building "
          + "strategies that "
          + "took me from "
          + "broke to making "
          + "$25,000..."),
        "processed", 0, 0),
      ViralVideo(0, "ChatGPT + This "
          + "Tool = $500/Day "
          + "(AI Money "
          + "Method)", "TikTok", "https://tiktok.com/sample4", 750000, 10.3, 91,
        Some("Everyone uses "
          + "ChatGPT wrong. "
          + "I combine it "
          + "with this one "
          + "tool and make "
          + "$500+ daily. "
          + "Here's the "
          + "exact process..."),
        Some("#chatgpt "
          + "#aitools "
          + "#makemoneywithai "
          + "#artificialintelligence "
          + "#generativeai "
          + "#aiautomation"),
        Some("Most people are "
          + "using ChatGPT "
          + "completely "
          + "wrong. Let me "
          + "show you how I "
          + "combine it with "
          + "this tool to "
          + "make $500 a "
          + "day..."),
        "processed", 0, 0),
      ViralVideo(0, "5 Side Hustles "
          + "That Actually "
          + "Pay $100+ Daily", "Instagram", "https://instagram.com/sample5", 950000, 13.1, 96,
        Some("After testing "
          + "20+ side "
          + "hustles, these "
          + "5 actually "
          + "work. Number 3 "
          + "changed my life "
          + "completely."),
        Some("#sidehustle "
          + "#makemoneyonline "
          + "#passiveincome "
          + "#entrepreneurship "
          + "#workfromhome"),
        Some("I've tried over "
          + "20 different "
          + "side hustles "
          + "and these 5 are "
          + "the only ones "
          + "that "
          + "consistently "
          + "pay..."),
        "processed", 0, 0),
      ViralVideo(0, "How AI "
          + "Automation "
          + "Replaced My 9-5 "
          + "Income", "YouTube", "https://youtube.com/sample6", 580000, 11.8, 92,
        Some("AI didn't take "
          + "my job - it "
          + "gave me a "
          + "better one. "
          + "From $60K/year "
          + "to $120K/year "
          + "using AI "
          + "automation. "
          + "Here's how..."),
        Some("#aiautomation "
          + "#artificialintelligence "
          + "#makemoneywithai "
          + "#generativeai "
          + "#aitools "
          + "#futureofwork"),
        Some("A year ago I "
          + "was making "
          + "$60,000 at my "
          + "corporate job. "
          + "Today I make "
          + "$120,000 a year "
          + "using AI "
          + "automation..."),
        "processed", 0, 0)
    ]
  }

  function AffiliateProductSamples(): seq<AffiliateProduct> {
    [
      AffiliateProduct(0, "Systeme.io", "AI & Automation "
          + "Tools", 60.0, Some(162.0), "https://systeme.io/affiliate",
        Some(95), Some(5.0), Some(true), Some(true), 0),
      AffiliateProduct(0, "ClickFunnels 2.0", "AI & Automation "
          + "Tools", 40.0, Some(78.0), "https://clickfunnels.com/affiliates",
        Some(88), Some(8.0), Some(true), Some(true), 0),
      AffiliateProduct(0, "Jasper AI", "AI Content "
          + "Creation", 30.0, Some(45.0), "https://jasper.ai/affiliate",
        Some(82), Some(7.0), Some(false), Some(true), 0),
      AffiliateProduct(0, "GetResponse", "Email Marketing "
          + "Automation", 33.0, Some(90.0), "https://getresponse.com/affiliate",
        Some(75), Some(6.0), Some(true), Some(true), 0),
      AffiliateProduct(0, "ConvertKit", "Business & "
          + "Marketing Tools", 30.0, Some(52.0), "https://convertkit.com/affiliate",
        Some(70), Some(5.0), Some(false), Some(true), 0),
      AffiliateProduct(0, "Leadpages", "Business & "
          + "Marketing Tools", 50.0, Some(111.0), "https://leadpages.com/affiliate",
        Some(65), Some(8.0), Some(true), Some(true), 0),
      AffiliateProduct(0, "Legendary "
          + "Marketer", "High-Ticket "
          + "Courses", 60.0, Some(1550.0), "https://legendarymarketer.com/affiliate",
        Some(92), Some(12.0), Some(true), Some(false), 0),
      AffiliateProduct(0, "ClickBank "
          + "High-Ticket", "High-Ticket "
          + "Courses", 62.0, Some(1350.0), "https://clickbank.com",
        Some(85), Some(15.0), Some(true), Some(false), 0)
    ]
  }

  function ScriptSamples(): seq<Script> {
    [
      Script(0, "Morning "
          + "Motivation: "
          + "Start Your Side "
          + "Hustle Today",
        "🎯 Hook: 'I used "
          + "to hate Monday "
          + "mornings. Now I "
          + "wake up excited "
          + "because my side "
          + "hustle made me "
          + "$500 while I "
          + "slept.'\n\n❗ "
          + "Problem: 'Most "
          + "people are "
          + "stuck in jobs "
          + "they hate, "
          + "living paycheck "
          + "to paycheck, "
          + "with no way "
          + "out.'\n\n💡 "
          + "Solution: 'I "
          + "discovered "
          + "affiliate "
          + "marketing - "
          + "promoting "
          + "products I "
          + "believe in and "
          + "earning "
          + "commissions.'\n\n📊 "
          + "Proof: 'In 6 "
          + "months, I went "
          + "from $0 to "
          + "$8,600/month "
          + "working just 2 "
          + "hours "
          + "daily.'\n\n📞 "
          + "Call to Action: "
          + "'Comment START "
          + "if you want the "
          + "exact blueprint "
          + "I used. It's "
          + "completely "
          + "free.'",
        "Motivational", "60 seconds", "Aspiring "
          + "Entrepreneurs", "success-story", Some(true), "approved", 0, 0),
      Script(0, "5 AI Tools That "
          + "Actually Make "
          + "Money (Not "
          + "ChatGPT)",
        "🎯 Hook: "
          + "'Everyone talks "
          + "about ChatGPT, "
          + "but these 5 AI "
          + "tools actually "
          + "generate "
          + "income.'\n\n❗ "
          + "Problem: 'Most "
          + "people use AI "
          + "tools for fun, "
          + "not profit. "
          + "They're missing "
          + "the real "
          + "money-making "
          + "opportunities.'\n\n💡 "
          + "Solution: 'I "
          + "use Jasper AI "
          + "for content, "
          + "Systeme.io for "
          + "automation, and "
          + "3 other tools "
          + "to create "
          + "multiple income "
          + "streams.'\n\n📊 "
          + "Proof: 'Last "
          + "month: $3,200 "
          + "from "
          + "AI-generated "
          + "content, $2,100 "
          + "from "
          + "automation, "
          + "$1,800 from AI "
          + "affiliate "
          + "commissions.'\n\n📞 "
          + "Call to Action: "
          + "'Drop a 🤖 if "
          + "you want my "
          + "complete AI "
          + "money-making "
          + "toolkit.'",
        "AI Tools Review", "45 seconds", "Tech-Savvy "
          + "Entrepreneurs", "tips-tricks", Some(true), "approved", 0, 0),
      Script(0, "Wealth Building "
          + "Secrets Rich "
          + "People Don't "
          + "Share",
        "🎯 Hook: 'Rich "
          + "people have 7 "
          + "income streams. "
          + "Poor people "
          + "have 1. Here's "
          + "how to build "
          + "yours.'\n\n❗ "
          + "Problem: "
          + "'You're trading "
          + "time for money. "
          + "Rich people "
          + "make money work "
          + "for them while "
          + "they "
          + "sleep.'\n\n💡 "
          + "Solution: 'I "
          + "built multiple "
          + "passive income "
          + "streams: "
          + "affiliate "
          + "marketing, "
          + "course sales, "
          + "and recurring "
          + "commissions.'\n\n📊 "
          + "Proof: 'Stream "
          + "1: "
          + "$2,400/month. "
          + "Stream 2: "
          + "$1,800/month. "
          + "Stream 3: "
          + "$4,400/month. "
          + "Total: "
          + "$8,600/month.'\n\n📞 "
          + "Call to Action: "
          + "'Comment WEALTH "
          + "if you want my "
          + "7-stream income "
          + "blueprint.'",
        "Wealth Building", "75 seconds", "Wealth Seekers", "success-story", Some(true), "approved", 0, 0),
      Script(0, "Lunch Break "
          + "Tip: Make Money "
          + "While You Eat",
        "🎯 Hook: 'This "
          + "15-minute lunch "
          + "break routine "
          + "made me $2,400 "
          + "last "
          + "month.'\n\n❗ "
          + "Problem: "
          + "'You're already "
          + "scrolling your "
          + "phone during "
          + "lunch - why not "
          + "make money "
          + "doing it?'\n\n💡 "
          + "Solution: 'I "
          + "promote "
          + "business "
          + "courses and "
          + "tools that "
          + "actually help "
          + "people "
          + "succeed.'\n\n📊 "
          + "Proof: 'My best "
          + "month was "
          + "$8,600 in "
          + "commissions "
          + "from just "
          + "posting helpful "
          + "content.'\n\n📞 "
          + "Call to Action: "
          + "'Drop a 💰 if "
          + "you want to "
          + "learn my exact "
          + "method.'",
        "Tips & Tricks", "30 seconds", "Working "
          + "Professionals", "tips-tricks", Some(true), "approved", 0, 0),
      Script(0, "How AI "
          + "Automation "
          + "Replaced My 9-5 "
          + "Income",
        "🎯 Hook: 'AI "
          + "didn't take my "
          + "job - it gave "
          + "me a better "
          + "one. From "
          + "$60K/year to "
          + "$120K/year.'\n\n❗ "
          + "Problem: "
          + "'Everyone fears "
          + "AI will replace "
          + "jobs, but "
          + "nobody teaches "
          + "you how to use "
          + "AI to create "
          + "better "
          + "income.'\n\n💡 "
          + "Solution: 'I "
          + "built AI "
          + "automation "
          + "systems using "
          + "ClickFunnels "
          + "and GetResponse "
          + "that work 24/7 "
          + "without "
          + "me.'\n\n📊 "
          + "Proof: 'Month "
          + "1: $2,400. "
          + "Month 6: "
          + "$8,600. Month "
          + "12: $10,200. "
          + "All from AI "
          + "automation.'\n\n📞 "
          + "Call to Action: "
          + "'Comment "
          + "FREEDOM if you "
          + "want to learn "
          + "my AI "
          + "automation "
          + "blueprint.'",
        "AI Success Story", "90 seconds", "Corporate "
          + "Employees", "success-story", Some(true), "approved", 0, 0)
    ]
  }

  function AnalyticsSamples(): seq<Analytics> {
    [
      Analytics(0, None, "TikTok", Some(1200000), Some(12.5), Some(2400.0), Some(4.2), 0),
      Analytics(0, None, "Instagram", Some(890000), Some(9.8), Some(1800.0), Some(3.8), 0),
      Analytics(0, None, "YouTube", Some(650000), Some(11.2), Some(1400.0), Some(5.1), 0)
    ]
  }

  /** The four sample tables, in the order they are seeded. */
  datatype Seed = Seed(viralVideos: seq<ViralVideo>, affiliateProducts: seq<AffiliateProduct>,
                       scripts: seq<Script>, analytics: seq<Analytics>)
  {
    /** The number of rows, one clock reading each. */
    function Size(): nat {
      |viralVideos| + |affiliateProducts| + |scripts| + |analytics|
    }

    // Where each table's clock readings start.
    function ProductsFrom(): nat { |viralVideos| }
    function ScriptsFrom(): nat { |viralVideos| + |affiliateProducts| }
    function AnalyticsFrom(): nat { |viralVideos| + |affiliateProducts| + |scripts| }
  }

  /** The rows `initializeSampleData` seeds. */
  function Rows(): Seed {
    Seed(ViralVideoSamples(), AffiliateProductSamples(), ScriptSamples(), AnalyticsSamples())
  }

  // The number of rows in each sample table.
  lemma ViralVideoSampleCount() ensures |ViralVideoSamples()| == 6 {}
  lemma AffiliateProductSampleCount() ensures |AffiliateProductSamples()| == 8 {}
  lemma ScriptSampleCount() ensures |ScriptSamples()| == 5 {}
  lemma AnalyticsSampleCount() ensures |AnalyticsSamples()| == 3 {}
}
