/** The portrait scene of `data/scenes/portrait.ts`, the registry's fallback scene, as a
    fixture for concrete statements about field order, visibility and editability. */
module SceneFixtures {
  import opened PromptTypes

  function Opt(displayLabel: string, value: string, description: Option<string>): FieldOption {
    FieldOption(displayLabel, value, description, None)
  }

  const SubjectField := FieldEntry(Subject, FieldSchema(
    "视觉核心 (Subject)", TextValue, Some(Grid), false, false, Beginner, Beginner, true,
    [ Opt("云想衣裳 (精致)",
          "A stunning 25-year-old Chinese female model, exquisite high-bone structure, detailed silk embroidery, modern neo-Hanfu, editorial pose",
          Some("强调精致的骨相与刺绣细节，尽显东方尊贵感。")),
      Opt("雨后青茶 (青涩)",
          "A 25-year-old young Chinese woman with a clean, youthful face, naive and ethereal gaze, natural long black hair, wearing a white cotton dress",
          Some("捕捉清晨茶园般的青涩感，强调自然皮肤质感。")),
      Opt("墨色绅士",
          "A refined 25-year-old Chinese man, scholarly elegance, sharp minimalist suit with ink-wash patterns, deep contemplative gaze",
          Some("文人雅士与现代绅士的融合。")) ],
    1, Some("描述一位 25 岁左右、具有东方气质的主体...")))

  const LightingField := FieldEntry(Lighting, FieldSchema(
    "光影逻辑 (Lighting)", EnumValue, Some(Grid), false, false, Beginner, Beginner, true,
    [ Opt("东方蝉意 (柔光)", "diffused natural soft light, hazy atmosphere, subtle god rays", None),
      Opt("雕刻时光 (硬光)", "high-contrast dramatic side lighting, sharp shadows, chiaroscuro effect", None),
      Opt("霓虹冷暖", "cyberpunk red and teal neon lighting, cinematic backlighting", None) ],
    2, None))

  const CameraField := FieldEntry(Camera, FieldSchema(
    "数字影像终端 (Device)", TextValue, Some(Tags), false, false, Advanced, Expert, true,
    [ Opt("索尼人像旗舰", "Sony A7R V, FE 85mm f/1.2 GM", None),
      Opt("徕卡传奇色彩", "Leica M11, Summilux-M 50mm f/1.4 ASPH", None),
      Opt("哈苏中画幅", "Hasselblad X2D 100C, XCD 90mm f/2.5", None) ],
    3, None))

  const CameraSettingsField := FieldEntry(CameraSettings, FieldSchema(
    "精密光学规格 (Specs)", TextValue, None, false, false, Advanced, Expert, true,
    [], 4, Some("例如: f/1.2, 1/200s, ISO 100, 浅景深控制")))

  /** `portraitScene.fields`, in declaration order. */
  const PortraitFields: seq<FieldEntry> := [SubjectField, LightingField, CameraField, CameraSettingsField]

  const PortraitDefaults: StructuredPrompt := map[
    Subject := "A graceful 25-year-old Chinese woman with refined features, ethereal porcelain skin, wearing a minimalist silk Qipao, gentle but firm gaze",
    Environment := "high-end zen-style studio, soft shadows, minimalist aesthetic",
    Camera := "Sony A7R V with Sony FE 85mm f/1.2 GM",
    CameraSettings := "f/1.2, 1/160s, ISO 100, eye-autofocus enabled",
    Lighting := "classic Rembrandt lighting with a subtle warm fill",
    Medium := "high-fashion photography",
    Quality := "8k resolution, cinematic grain, hyper-detailed textures"]

  const PortraitScene := SceneDefinition(
    Portrait, "人物肖像", "Portrait", "融合东方骨相美学与现代高级时装感的专业肖像空间。", "User",
    Some(true), PortraitFields, Some(PortraitDefaults))
}
