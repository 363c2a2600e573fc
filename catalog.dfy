/** The raw tool record every source produces, and the built-in sample
    catalog used when live sources yield too little. */
module Catalog {
  import opened Text

  /** A raw tool record; `source` is None for a record that has no source key. */
  datatype RawTool = RawTool(name: string, description: string, source: Option<string>)

  /** The baseline catalog appended when live sources yield too little. */
  function SampleTools(): (r: seq<RawTool>)
    ensures |r| == 30
  {
    seq(30, i requires 0 <= i < 30 => Sample(i))
  }

  /** The sample catalog's records, in order. */
  function Sample(i: nat): RawTool
    requires i < 30
  {
    match i
    case 0 => RawTool("GitHub Copilot", "AI-powered code completion and suggestion tool for developers. Supports multiple programming languages and major IDEs like VS Code.", Some("Sample"))
    case 1 => RawTool("Midjourney", "AI image generation tool that creates stunning artwork from text prompts using diffusion models.", Some("Sample"))
    case 2 => RawTool("Jasper AI", "AI writing assistant for marketing copy, blog posts, SEO content, and social media captions.", Some("Sample"))
    case 3 => RawTool("Tableau AI", "Business intelligence platform with AI-powered analytics, data visualization, and dashboard creation.", Some("Sample"))
    case 4 => RawTool("Zapier AI", "Workflow automation platform that connects 6000+ apps and automates repetitive tasks without coding.", Some("Sample"))
    case 5 => RawTool("Perplexity AI", "AI-powered search engine that provides real-time answers with cited sources from the web.", Some("Sample"))
    case 6 => RawTool("ElevenLabs", "AI voice synthesis and cloning tool for hyper-realistic speech in 29 languages.", Some("Sample"))
    case 7 => RawTool("Runway ML", "AI video generation and editing platform for creating cinematic content from text or images.", Some("Sample"))
    case 8 => RawTool("Notion AI", "AI assistant inside Notion for summarizing, drafting, translating, and improving documents.", Some("Sample"))
    case 9 => RawTool("AutoGPT", "Autonomous AI agent that browses the web, writes code, and completes multi-step tasks automatically.", Some("Sample"))
    case 10 => RawTool("Hugging Face", "Open-source ML platform for sharing, discovering, and deploying NLP, vision, and audio models.", Some("Sample"))
    case 11 => RawTool("Whisper", "OpenAI open-source speech-to-text transcription model with multilingual support and high accuracy.", Some("Sample"))
    case 12 => RawTool("Stable Diffusion", "Open-source text-to-image AI model that generates detailed images from text descriptions locally.", Some("Sample"))
    case 13 => RawTool("LangChain", "Framework for building LLM-powered applications, agents, and pipelines with memory and tool integration.", Some("Sample"))
    case 14 => RawTool("Cursor", "AI-first code editor built on VS Code with built-in chat, code generation, and codebase understanding.", Some("Sample"))
    case 15 => RawTool("Otter.ai", "AI meeting assistant that records, transcribes, and summarizes meetings in real time.", Some("Sample"))
    case 16 => RawTool("Copy.ai", "AI content generation platform for product descriptions, ad copy, blog posts, and sales emails.", Some("Sample"))
    case 17 => RawTool("Synthesia", "AI video generation platform that creates professional videos with AI avatars from plain text.", Some("Sample"))
    case 18 => RawTool("Descript", "AI-powered audio and video editor that lets you edit media by editing text transcripts.", Some("Sample"))
    case 19 => RawTool("Tome", "AI-powered presentation tool that generates complete slide decks from a text prompt.", Some("Sample"))
    case 20 => RawTool("Codeium", "Free AI code completion and chat assistant supporting 70+ languages and 40+ editors.", Some("Sample"))
    case 21 => RawTool("Pika Labs", "AI video generation platform that transforms images and text into animated video clips.", Some("Sample"))
    case 22 => RawTool("Character.ai", "Platform for creating and chatting with AI characters with distinct personalities.", Some("Sample"))
    case 23 => RawTool("Murf AI", "AI voice generator for creating studio-quality voiceovers for videos, podcasts, and presentations.", Some("Sample"))
    case 24 => RawTool("Phind", "AI search engine and coding assistant specialized for developers and technical questions.", Some("Sample"))
    case 25 => RawTool("Consensus", "AI search engine for scientific research that summarizes findings from peer-reviewed papers.", Some("Sample"))
    case 26 => RawTool("Gamma", "AI-powered tool for creating beautiful presentations, documents, and webpages from a prompt.", Some("Sample"))
    case 27 => RawTool("Replit Ghostwriter", "AI coding assistant embedded in Replit IDE for code completion, explanation, and transformation.", Some("Sample"))
    case 28 => RawTool("Beautiful.ai", "AI presentation software with smart slide templates that auto-adjust design and layout.", Some("Sample"))
    case _ => RawTool("Mem.ai", "AI-powered knowledge base that automatically organizes notes and surfaces relevant information.", Some("Sample"))
  }
}
