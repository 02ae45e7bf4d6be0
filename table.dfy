/**
 * The derivation table: one row per output key, in the order the rows are
 * evaluated.
 */
module Table {
  import opened Schema

  /** The whole table, in evaluation order. */
  const Operations: seq<Op> :=
    Demographics + PastDiseases1 + PastDiseases2 + MorePastDiseases1
    + MorePastDiseases2 + Medications1 + Medications2 + FamilyDiseases1
    + FamilyDiseases2 + BodyMeasures1 + BodyMeasures2 + Habits
    + Laboratory1 + Laboratory2

  /** Rows 1-2: age and sex. */
  const Demographics: seq<Op> := [
    Op(Age, "年齡", "Age", ["基本資料-出生日期", "基本資料-健檢日期"]),
    Op(Sex, "性別", "Sex", ["基本資料-性別"])
  ]

  /** Rows 3-15: past diseases. */
  const PastDiseases1: seq<Op> := [
    Op(DiseaseHistory, "高血壓", "HT", ["過去疾病史-高血壓V3", "Medicine : 使用藥物-降血壓藥物V3"]),
    Op(DiseaseHistory, "冠狀動脈疾病", "CAD", ["過去疾病史-冠狀動脈疾病V3"]),
    Op(DiseaseHistory, "心律不整", "Arrhythmia", ["過去疾病史-心律不整V3"]),
    Op(DiseaseHistory, "心辮膜疾病", "VHD", ["過去疾病史-心辮膜疾病V3"]),
    Op(DiseaseHistory, "腦中風", "Stroke", ["過去疾病史-腦中風V3"]),
    Op(DiseaseHistory, "糖尿病", "DM", ["過去疾病史-糖尿病V3", "Medicine : 使用藥物-降血糖藥物V3", "Medicine : 使用藥物-施打胰島素V3"]),
    Op(DiseaseHistory, "高血脂症", "Hyperlipidemia", ["過去疾病史-高血脂症V3", "Medicine : 使用藥物-降血脂藥物V3"]),
    Op(DiseaseHistory, "高尿酸症或痛風", "Gout", ["過去疾病史-高尿酸症或痛風V3"]),
    Op(DiseaseHistory, "甲狀腺機能亢進", "Hyperthyroidism", ["過去疾病史-甲狀腺機能亢進V3"]),
    Op(DiseaseHistory, "甲狀腺機能低下", "Hypothyroidism", ["過去疾病史-甲狀腺機能低下V3"]),
    Op(DiseaseHistory, "膽囊或膽管結石", "gallstones", ["過去疾病史-膽囊或膽管結石V3"]),
    Op(DiseaseHistory, "大腸息肉", "colon_polyp", ["過去疾病史-大腸息肉V3"]),
    Op(DiseaseHistory, "痔瘡", "hemorrhoid", ["過去疾病史-痔瘡V3"])
  ]

  /** Rows 16-28: past diseases. */
  const PastDiseases2: seq<Op> := [
    Op(DiseaseHistory, "慢性胰臟炎", "chronic_pancreatitis", ["過去疾病史-慢性胰臟炎V3"]),
    Op(DiseaseHistory, "風濕性關節炎", "RA", ["過去疾病史-風濕性關節炎V3"]),
    Op(DiseaseHistory, "腎炎", "Nephritis", ["過去疾病史-腎炎V3"]),
    Op(DiseaseHistory, "腎病症候群及病變", "Nephrotic_syndrome", ["過去疾病史-腎病症候群及病變V3"]),
    Op(DiseaseHistory, "急性腎衰竭", "AKI", ["過去疾病史-急性腎衰竭V3"]),
    Op(DiseaseHistory, "慢性腎衰竭", "CKD", ["過去疾病史-慢性腎衰竭V3"]),
    Op(DiseaseHistory, "腎結石或尿路結石", "nephrolithiasis", ["過去疾病史-腎結石或尿路結石V3"]),
    Op(DiseaseHistory, "泌尿道感染", "UTI", ["過去疾病史-泌尿道感染V3"]),
    Op(DiseaseHistory, "攝護腺肥大", "Prostate_hypertrophy", ["過去疾病史-攝護腺肥大V3"]),
    Op(DiseaseHistory, "青光眼", "glaucoma", ["過去疾病史-青光眼V3"]),
    Op(DiseaseHistory, "白內障", "cataract", ["過去疾病史-白內障V3"]),
    Op(DiseaseHistory, "高度近視", "nearsighted", ["過去疾病史-高度近視V3"]),
    Op(DiseaseHistory, "視網膜病變", "Retinopathy", ["過去疾病史-視網膜病變V3"])
  ]

  /** Rows 29-41: past diseases. */
  const MorePastDiseases1: seq<Op> := [
    Op(DiseaseHistory, "中耳炎", "Otitis_media", ["過去疾病史-中耳炎V3"]),
    Op(DiseaseHistory, "梅尼爾氏症-內耳神經失調", "Menieres_disease", ["過去疾病史-梅尼爾氏症-內耳神經失調V3"]),
    Op(DiseaseHistory, "肺炎", "pneumonia", ["過去疾病史-肺炎V3"]),
    Op(DiseaseHistory, "肺氣腫", "Emphysema", ["過去疾病史-肺氣腫V3"]),
    Op(DiseaseHistory, "肺結核", "TB", ["過去疾病史-肺結核V3"]),
    Op(DiseaseHistory, "支氣管擴張症", "Bronchiectasis", ["過去疾病史-支氣管擴張症V3"]),
    Op(DiseaseHistory, "慢性支氣管炎", "chronic_bronchitis", ["過去疾病史-慢性支氣管炎V3"]),
    Op(DiseaseHistory, "氣喘", "asthma", ["過去疾病史-氣喘V3"]),
    Op(DiseaseHistory, "紅斑性狼瘡", "SLE", ["過去疾病史-紅斑性狼瘡V3"]),
    Op(DiseaseHistory, "逆流性食道炎", "GERD", ["過去疾病史-逆流性食道炎V3"]),
    Op(DiseaseHistory, "胃或十二指腸潰瘍", "PUD", ["過去疾病史-胃或十二指腸潰瘍V3"]),
    Op(DiseaseHistory, "B型肝炎帶原", "hepatitis_B", ["過去疾病史-B型肝炎帶原V3"]),
    Op(DiseaseHistory, "C型肝炎帶原", "hepatitis_C", ["過去疾病史-C型肝炎帶原V3"])
  ]

  /** Rows 42-53: past diseases. */
  const MorePastDiseases2: seq<Op> := [
    Op(DiseaseHistory, "肝硬化", "Liver cirrhosis", ["過去疾病史-肝硬化V3"]),
    Op(DiseaseHistory, "急性胰臟炎", "Acute_Pancreatitis", ["過去疾病史-急性胰臟炎V3"]),
    Op(DiseaseHistory, "聽力障礙", "Hearing_impairments", ["過去疾病史-聽力障礙V3"]),
    Op(DiseaseHistory, "鼻中隔彎曲", "NSD", ["過去疾病史-鼻中隔彎曲V3"]),
    Op(DiseaseHistory, "過敏性鼻炎", "Allergic_rhinitis", ["過去疾病史-過敏性鼻炎V3"]),
    Op(DiseaseHistory, "鼻竇炎", "Sinusitis", ["過去疾病史-鼻竇炎V3"]),
    Op(DiseaseHistory, "癲癇", "epilepsy", ["過去疾病史-癲癇V3"]),
    Op(DiseaseHistory, "巴金森氏症", "Parkinson", ["過去疾病史-巴金森氏症V3"]),
    Op(DiseaseHistory, "躁鬱症", "bipolar_disorder", ["過去疾病史-躁鬱症V3"]),
    Op(DiseaseHistory, "憂鬱症", "Depression", ["過去疾病史-憂鬱症V3"]),
    Op(DiseaseHistory, "睡眠呼吸中止症候群", "sleep_apnea", ["過去疾病史-睡眠呼吸中止症候群V3"]),
    Op(DiseaseHistory, "癌症", "cancer", ["Status : 身體狀況-鼻咽癌V3", "Status : 身體狀況-口腔癌/下咽癌V3", "Status : 身體狀況-肺癌V3", "Status : 身體狀況-乳癌V3", "Status : 身體狀況-食道癌V3", "Status : 身體狀況-胃癌V3", "Status : 身體狀況-肝癌V3", "Status : 身體狀況-胰臟癌V3", "Status : 身體狀況-膽囊癌/膽管癌V3", "Status : 身體狀況-大腸直腸癌V3", "Status : 身體狀況-卵巢癌V3", "Status : 身體狀況-子宮頸癌V3", "Status : 身體狀況-攝護腺癌V3", "Status : 身體狀況-白血病V3", "Status : 身體狀況-淋巴癌V3", "Status : 身體狀況-其他惡性腫瘤V3"])
  ]

  /** Rows 54-64: medications in use. */
  const Medications1: seq<Op> := [
    Op(DiseaseHistory, "降血糖藥物", "OHA", ["Medicine : 使用藥物-降血糖藥物V3"]),
    Op(DiseaseHistory, "施打胰島素", "insulin", ["Medicine : 使用藥物-施打胰島素V3"]),
    Op(DiseaseHistory, "降血壓藥物", "antihypertensive", ["Medicine : 使用藥物-降血壓藥物V3"]),
    Op(DiseaseHistory, "利尿劑", "diuretic", ["Medicine : 使用藥物-利尿劑V3"]),
    Op(DiseaseHistory, "降血脂藥物", "lipid_lowering", ["Medicine : 使用藥物-降血脂藥物V3"]),
    Op(DiseaseHistory, "抗凝血劑", "Anticoagulant", ["Medicine : 使用藥物-抗凝血劑V3"]),
    Op(DiseaseHistory, "抗血小板藥", "Antiplatelet", ["Medicine : 使用藥物-抗血小板藥V3"]),
    Op(DiseaseHistory, "心律不整藥", "Antiarrhythmic", ["Medicine : 使用藥物-心律不整藥V3"]),
    Op(DiseaseHistory, "降尿酸藥物", "uricacid_drug", ["Medicine : 使用藥物-降尿酸藥物V3"]),
    Op(DiseaseHistory, "氣喘肺氣腫", "asthma_drug", ["Medicine : 使用藥物-氣喘肺氣腫V3"]),
    Op(DiseaseHistory, "感冒藥", "cold_drug", ["Medicine : 使用藥物-感冒藥V3"])
  ]

  /** Rows 65-74: medications in use. */
  const Medications2: seq<Op> := [
    Op(DiseaseHistory, "胃藥物", "Stomach_drug", ["Medicine : 使用藥物-胃藥物V3"]),
    Op(DiseaseHistory, "肝臟病藥物", "liver_drug", ["Medicine : 使用藥物-肝臟病藥物V3"]),
    Op(DiseaseHistory, "甲狀腺藥物", "thyroid_drug", ["Medicine : 使用藥物-甲狀腺藥物V3"]),
    Op(DiseaseHistory, "止痛消炎藥", "anti_inflammatory", ["Medicine : 使用藥物-止痛消炎藥V3"]),
    Op(DiseaseHistory, "安眠鎮定劑", "Hypnotic", ["Medicine : 使用藥物-安眠鎮定劑V3"]),
    Op(DiseaseHistory, "荷爾蒙補充", "Hormone_sup", ["Medicine : 使用藥物-荷爾蒙補充V3"]),
    Op(DiseaseHistory, "骨質疏鬆藥", "osteoporosis_drug", ["Medicine : 使用藥物-骨質疏鬆藥V3"]),
    Op(DiseaseHistory, "鐵劑", "iron_sup", ["Medicine : 使用藥物-鐵劑V3"]),
    Op(DiseaseHistory, "類固醇", "Steroid", ["Medicine : 使用藥物-類固醇V3"]),
    Op(DiseaseHistory, "攝護腺藥物", "Prostate_drug", ["Medicine : 使用藥物-攝護腺藥物V3"])
  ]

  /** Rows 75-83: family history. */
  const FamilyDiseases1: seq<Op> := [
    Op(FamilyHistory, "高血壓家族史", "fami_HT", ["Family History : 家族病史-高血壓V3"]),
    Op(FamilyHistory, "冠狀動脈疾病(心絞痛或心肌梗塞)家族史", "fami_CAD", ["Family History : 家族病史-冠狀動脈疾病(心絞痛或心肌梗塞)V3"]),
    Op(FamilyHistory, "腦中風家族史", "fami_Stroke", ["Family History : 家族病史-腦中風V3"]),
    Op(FamilyHistory, "糖尿病家族史", "fami_DM", ["Family History : 家族病史-糖尿病V3"]),
    Op(FamilyHistory, "高血脂症家族史", "fami_Hyperlipidemia", ["Family History : 家族病史-高血脂症V3"]),
    Op(FamilyHistory, "高尿酸症或痛風家族史", "fami_Gout", ["Family History : 家族病史-高尿酸症或痛風V3"]),
    Op(FamilyHistory, "逆流性食道炎家族史", "fami_GERD", ["Family History : 家族病史-逆流性食道炎V3"]),
    Op(FamilyHistory, "消化性潰瘍(胃潰瘍或十二指腸潰瘍)家族史", "fami_PUD", ["Family History : 家族病史-消化性潰瘍(胃潰瘍或十二指腸潰瘍)V3"]),
    Op(FamilyHistory, "B型肝炎帶原家族史", "fami_hepatitis_B", ["Family History : 家族病史-B型肝炎帶原V3"])
  ]

  /** Rows 84-92: family history. */
  const FamilyDiseases2: seq<Op> := [
    Op(FamilyHistory, "C型肝炎帶原家族史", "fami_hepatitis_C", ["Family History : 家族病史-C型肝炎帶原V3"]),
    Op(FamilyHistory, "肝硬化家族史", "fami_Liver_cirrhosis", ["Family History : 家族病史-肝硬化V3"]),
    Op(FamilyHistory, "慢性胰臟炎家族史", "fami_pancreatitis", ["Family History : 家族病史-慢性胰臟炎V3"]),
    Op(FamilyHistory, "膽囊或膽管結石家族史", "fami_gallstones", ["Family History : 家族病史-膽囊或膽管結石V3"]),
    Op(FamilyHistory, "肺氣腫家族史", "fami_Emphysema", ["Family History : 家族病史-肺氣腫V3"]),
    Op(FamilyHistory, "氣喘家族史", "fami_asthma", ["Family History : 家族病史-氣喘V3"]),
    Op(FamilyHistory, "紅斑性狼瘡家族史", "fami_SLE", ["Family History : 家族病史-紅斑性狼瘡V3"]),
    Op(FamilyHistory, "風濕性關節炎家族史", "fami_RA", ["Family History : 家族病史-風濕性關節炎V3"]),
    Op(FamilyHistory, "癌症家族史", "fami_cancer", ["Family History : 家族病史-鼻咽癌V3", "Family History : 家族病史-口腔癌/下咽癌V3", "Family History : 家族病史-肺癌V3", "Family History : 家族病史-乳癌V3", "Family History : 家族病史-食道癌V3", "Family History : 家族病史-胃癌V3", "Family History : 家族病史-肝癌V3", "Family History : 家族病史-胰臟癌V3", "Family History : 家族病史-膽管癌V3", "Family History : 家族病史-大腸直腸癌V3", "Family History : 家族病史-卵巢癌V3", "Family History : 家族病史-子宮頸癌V3", "Family History : 家族病史-攝護腺癌V3", "Family History : 家族病史-白血病V3", "Family History : 家族病史-淋巴癌V3", "Family History : 家族病史-其他惡性腫瘤V3"])
  ]

  /** Rows 93-101: body measurements. */
  const BodyMeasures1: seq<Op> := [
    Op(Bmi, "身體質量指數", "BMI", ["身體理學檢查-Body Height", "身體理學檢查-Body Weight", "身體理學檢查-BMI"]),
    Op(Girth, "腹圍", "Abd_Girth", ["身體理學檢查-Abd_Girth"]),
    Op(Bp, "收縮壓", "SBP", ["身體理學檢查-Systolic Pressure(R)", "身體理學檢查-Systolic Pressure(L)"]),
    Op(Bp, "舒張壓", "DBP", ["身體理學檢查-Diastolic Pressure(R)", "身體理學檢查-Diastolic Pressure(L)"]),
    Op(Pass, "脂肪重", "MBF", ["身體理學檢查-MBF"]),
    Op(Pass, "體脂肪百分比", "PBF", ["身體理學檢查-PBF"]),
    Op(Pass, "基礎代謝率", "BMR", ["身體理學檢查-BMR"]),
    Op(Pass, "阻抗係數", "IMP", ["身體理學檢查-IMP"]),
    Op(Pass, "每日消耗總能量", "calory", ["身體理學檢查-calory"])
  ]

  /** Rows 102-109: body measurements. */
  const BodyMeasures2: seq<Op> := [
    Op(Pass, "內臟脂肪程度", "whr_level", ["身體理學檢查-whr_level"]),
    Op(Pass, "內臟脂肪面積", "vfa", ["身體理學檢查-vfa"]),
    Op(Pass, "內臟脂肪重量", "mvf_quantity", ["身體理學檢查-mvf_quantity"]),
    Op(Pass, "皮下脂肪重量", "msf_quantity", ["身體理學檢查-msf_quantity"]),
    Op(Pass, "細胞內水", "ICF", ["身體理學檢查-ICF"]),
    Op(Pass, "細胞外水", "ECF", ["身體理學檢查-ECF"]),
    Op(Pass, "水腫指數", "edema", ["身體理學檢查-edema"]),
    Op(Pass, "肥胖度", "Fatness", ["身體理學檢查-Fatness"])
  ]

  /** Rows 110-118: habits and questionnaires. */
  const Habits: seq<Op> := [
    Op(Alcohol, "飲酒狀態", "alcohol_gp", ["Hobit : 生活習慣-飲酒頻率V3", "Hobit : 生活習慣-每週飲酒天數酒精濃度 ＜10%", "Hobit : 生活習慣-每週飲酒天數酒精濃度 11~20%", "Hobit : 生活習慣-每週飲酒天數酒精濃度 21~30%", "Hobit : 生活習慣-每週飲酒天數酒精濃度 31~40%", "Hobit : 生活習慣-每週飲酒天數酒精濃度 41~50%", "Hobit : 生活習慣-每週飲酒天數酒精濃度 51~60%", "Hobit : 生活習慣-每週飲酒天數酒精濃度 ＞60%"]),
    Op(Cigarette, "吸菸狀態", "smoke_gp", ["Hobit : 生活習慣-現在平均每日抽菸量", "Hobit : 生活習慣-抽菸菸齡", "Hobit : 生活習慣-若您已戒菸了，已戒幾年", "Hobit : 生活習慣-戒菸前之平均每日抽菸量"]),
    Op(Betel, "檳榔嚼食", "betel_gp", ["Hobit : 生活習慣-每日嚼食檳榔量"]),
    Op(Drink, "咖啡習慣", "coffee_gp", ["Hobit : 生活習慣-平均每日喝咖啡量"]),
    Op(Drink, "喝茶習慣", "tea_gp", ["Hobit : 生活習慣-平均每日喝茶量"]),
    Op(Food, "飲食狀態", "food_gp", ["Hobit : 生活習慣-飲食種類"]),
    Op(Exercise, "運動狀態", "excercise_week", ["Hobit : 生活習慣-費力活動", "Hobit : 生活習慣-費力活動花多少時間", "Hobit : 生活習慣-中等費力活動", "Hobit : 生活習慣-中等費力活動花多少時間"]),
    Op(Psqi, "匹茲堡睡眠量表分數", "PSQI", ["Hobit : 生活習慣-過去一個月來，您每天睡眠的時間大約幾小時", "Hobit : 生活習慣-過去一個月來，您在上床後通常多久才能入睡", "Hobit : 生活習慣-過去一個月來，您實際每晚睡著時間佔躺床總時間的比例(即睡眠效率)約為多少", "Hobit : 生活習慣-過去一個月來，您的睡眠每星期有幾次出現下列困擾情形", "Hobit : 生活習慣-過去一個月來，整體而言，您覺得自己的睡眠品質如何", "Hobit : 生活習慣-過去一個月來，您有幾次需要使用藥物幫忙睡眠", "Hobit : 生活習慣-過去一個月來，您每星期約幾次曾在用餐、開車或社交場合瞌睡而無法保持清醒，或感到無心完成該做的事"]),
    Op(Bsrs5, "簡式健康量表", "BSRS5", ["Hobit : 生活習慣-睡眠困難，譬如難以入睡、易醒或早醒", "Hobit : 生活習慣-感覺緊張不安", "Hobit : 生活習慣-覺得容易苦惱或動怒", "Hobit : 生活習慣-感覺憂鬱、心情低落", "Hobit : 生活習慣-覺得比不上別人"])
  ]

  /** Rows 119-131: laboratory tests and imaging. */
  const Laboratory1: seq<Op> := [
    Op(ZeroDiscard, "Albumin", "Albumin", ["血液及實驗室常規檢查-Albumin-ALB"]),
    Op(ZeroDiscard, "ALP", "ALP", ["血液及實驗室常規檢查-ALP"]),
    Op(ZeroDiscard, "ALT", "ALT", ["血液及實驗室常規檢查-ALT"]),
    Op(ZeroDiscard, "AST", "AST", ["血液及實驗室常規檢查-AST"]),
    Op(ZeroDiscard, "Creatinine", "Creatinine", ["血液及實驗室常規檢查-CRE"]),
    Op(ZeroDiscard, "r_GT", "r_GT", ["血液及實驗室常規檢查-r-GT"]),
    Op(ZeroDiscard, "Glucose_PC", "Glucose_PC", ["血液及實驗室常規檢查-GLU PC"]),
    Op(ZeroDiscard, "Glucose_AC", "Glucose_AC", ["血液及實驗室常規檢查-GLU AC"]),
    Op(GlucoseU, "Glucose_U", "Glucose_U", ["血液及實驗室常規檢查-Glucose (U)"]),
    Op(ZeroDiscard, "Hemoglobin", "Hemoglobin", ["血液及實驗室常規檢查-HB"]),
    Op(ZeroDiscard, "HbA1c", "HbA1c", ["血液及實驗室常規檢查-HbA1c"]),
    Op(ZeroDiscard, "HCT", "HCT", ["血液及實驗室常規檢查-HCT"]),
    Op(ZeroDiscard, "HDL", "HDL", ["血液及實驗室常規檢查-HDL-C"])
  ]

  /** Rows 132-143: laboratory tests and imaging. */
  const Laboratory2: seq<Op> := [
    Op(HsCrp, "hsCRP", "hsCRP", ["血液及實驗室常規檢查-hsCRP", "血液及實驗室常規檢查-hs-CRP 20160618停用"]),
    Op(ZeroDiscard, "LDL", "LDL", ["血液及實驗室常規檢查-LDL-C"]),
    Op(ZeroDiscard, "Platelet", "Platelet", ["血液及實驗室常規檢查-Platelet"]),
    Op(ZeroDiscard, "T_BIL", "T_BIL", ["血液及實驗室常規檢查-T-BIL"]),
    Op(ZeroDiscard, "Total_Cholesterol", "Total_Cholesterol", ["血液及實驗室常規檢查-T-CHO"]),
    Op(ZeroDiscard, "Triglycerides", "Triglycerides", ["血液及實驗室常規檢查-TG"]),
    Op(ZeroDiscard, "TP", "TP", ["血液及實驗室常規檢查-TP"]),
    Op(ZeroDiscard, "Uric_acid", "Uric_acid", ["血液及實驗室常規檢查-UA"]),
    Op(ZeroDiscard, "BUN", "BUN", ["血液及實驗室常規檢查-BUN"]),
    Op(ZeroDiscard, "WBC", "WBC", ["血液及實驗室常規檢查-WBC"]),
    Op(ZeroDiscard, "RBC", "RBC", ["血液及實驗室常規檢查-RBC"]),
    Op(Agatston, "冠狀動脈鈣化指數", "Agatston_score", ["PACS_相關影像檢查-Chest CT", "PACS_相關影像檢查-MDCT", "PACS_相關影像檢查-低輻射64切電腦斷層冠狀動脈血管攝影", "PACS_相關影像檢查-Low dose Coronary CT Angiography", "PACS_相關影像檢查-calcium score", "PACS_相關影像檢查-心臟鈣化指數"])
  ]

  lemma DemographicsWellFormed()
    ensures |Demographics| == 2 && AllWellFormed(Demographics)
  {
    forall k | 0 <= k < |Demographics| ensures WellFormedRow(Demographics[k]) {
      match k
      case 0 =>
      case 1 =>
    }
  }

  lemma PastDiseases1WellFormed()
    ensures |PastDiseases1| == 13 && AllWellFormed(PastDiseases1)
  {
    forall k | 0 <= k < |PastDiseases1| ensures WellFormedRow(PastDiseases1[k]) {
      match k
      case 0 =>
      case 1 =>
      case 2 =>
      case 3 =>
      case 4 =>
      case 5 =>
      case 6 =>
      case 7 =>
      case 8 =>
      case 9 =>
      case 10 =>
      case 11 =>
      case 12 =>
    }
  }

  lemma PastDiseases2WellFormed()
    ensures |PastDiseases2| == 13 && AllWellFormed(PastDiseases2)
  {
    forall k | 0 <= k < |PastDiseases2| ensures WellFormedRow(PastDiseases2[k]) {
      match k
      case 0 =>
      case 1 =>
      case 2 =>
      case 3 =>
      case 4 =>
      case 5 =>
      case 6 =>
      case 7 =>
      case 8 =>
      case 9 =>
      case 10 =>
      case 11 =>
      case 12 =>
    }
  }

  lemma MorePastDiseases1WellFormed()
    ensures |MorePastDiseases1| == 13 && AllWellFormed(MorePastDiseases1)
  {
    forall k | 0 <= k < |MorePastDiseases1| ensures WellFormedRow(MorePastDiseases1[k]) {
      match k
      case 0 =>
      case 1 =>
      case 2 =>
      case 3 =>
      case 4 =>
      case 5 =>
      case 6 =>
      case 7 =>
      case 8 =>
      case 9 =>
      case 10 =>
      case 11 =>
      case 12 =>
    }
  }

  lemma MorePastDiseases2WellFormed()
    ensures |MorePastDiseases2| == 12 && AllWellFormed(MorePastDiseases2)
  {
    forall k | 0 <= k < |MorePastDiseases2| ensures WellFormedRow(MorePastDiseases2[k]) {
      match k
      case 0 =>
      case 1 =>
      case 2 =>
      case 3 =>
      case 4 =>
      case 5 =>
      case 6 =>
      case 7 =>
      case 8 =>
      case 9 =>
      case 10 =>
      case 11 =>
    }
  }

  lemma Medications1WellFormed()
    ensures |Medications1| == 11 && AllWellFormed(Medications1)
  {
    forall k | 0 <= k < |Medications1| ensures WellFormedRow(Medications1[k]) {
      match k
      case 0 =>
      case 1 =>
      case 2 =>
      case 3 =>
      case 4 =>
      case 5 =>
      case 6 =>
      case 7 =>
      case 8 =>
      case 9 =>
      case 10 =>
    }
  }

  lemma Medications2WellFormed()
    ensures |Medications2| == 10 && AllWellFormed(Medications2)
  {
    forall k | 0 <= k < |Medications2| ensures WellFormedRow(Medications2[k]) {
      match k
      case 0 =>
      case 1 =>
      case 2 =>
      case 3 =>
      case 4 =>
      case 5 =>
      case 6 =>
      case 7 =>
      case 8 =>
      case 9 =>
    }
  }

  lemma FamilyDiseases1WellFormed()
    ensures |FamilyDiseases1| == 9 && AllWellFormed(FamilyDiseases1)
  {
    forall k | 0 <= k < |FamilyDiseases1| ensures WellFormedRow(FamilyDiseases1[k]) {
      match k
      case 0 =>
      case 1 =>
      case 2 =>
      case 3 =>
      case 4 =>
      case 5 =>
      case 6 =>
      case 7 =>
      case 8 =>
    }
  }

  lemma FamilyDiseases2WellFormed()
    ensures |FamilyDiseases2| == 9 && AllWellFormed(FamilyDiseases2)
  {
    forall k | 0 <= k < |FamilyDiseases2| ensures WellFormedRow(FamilyDiseases2[k]) {
      match k
      case 0 =>
      case 1 =>
      case 2 =>
      case 3 =>
      case 4 =>
      case 5 =>
      case 6 =>
      case 7 =>
      case 8 =>
    }
  }

  lemma BodyMeasures1WellFormed()
    ensures |BodyMeasures1| == 9 && AllWellFormed(BodyMeasures1)
  {
    forall k | 0 <= k < |BodyMeasures1| ensures WellFormedRow(BodyMeasures1[k]) {
      match k
      case 0 =>
      case 1 =>
      case 2 =>
      case 3 =>
      case 4 =>
      case 5 =>
      case 6 =>
      case 7 =>
      case 8 =>
    }
  }

  lemma BodyMeasures2WellFormed()
    ensures |BodyMeasures2| == 8 && AllWellFormed(BodyMeasures2)
  {
    forall k | 0 <= k < |BodyMeasures2| ensures WellFormedRow(BodyMeasures2[k]) {
      match k
      case 0 =>
      case 1 =>
      case 2 =>
      case 3 =>
      case 4 =>
      case 5 =>
      case 6 =>
      case 7 =>
    }
  }

  lemma HabitsWellFormed()
    ensures |Habits| == 9 && AllWellFormed(Habits)
  {
    forall k | 0 <= k < |Habits| ensures WellFormedRow(Habits[k]) {
      match k
      case 0 =>
      case 1 =>
      case 2 =>
      case 3 =>
      case 4 =>
      case 5 =>
      case 6 =>
      case 7 =>
      case 8 =>
    }
  }

  lemma Laboratory1WellFormed()
    ensures |Laboratory1| == 13 && AllWellFormed(Laboratory1)
  {
    forall k | 0 <= k < |Laboratory1| ensures WellFormedRow(Laboratory1[k]) {
      match k
      case 0 =>
      case 1 =>
      case 2 =>
      case 3 =>
      case 4 =>
      case 5 =>
      case 6 =>
      case 7 =>
      case 8 =>
      case 9 =>
      case 10 =>
      case 11 =>
      case 12 =>
    }
  }

  lemma Laboratory2WellFormed()
    ensures |Laboratory2| == 12 && AllWellFormed(Laboratory2)
  {
    forall k | 0 <= k < |Laboratory2| ensures WellFormedRow(Laboratory2[k]) {
      match k
      case 0 =>
      case 1 =>
      case 2 =>
      case 3 =>
      case 4 =>
      case 5 =>
      case 6 =>
      case 7 =>
      case 8 =>
      case 9 =>
      case 10 =>
      case 11 =>
    }
  }

  /**
   * Every row reads at least one field, so the empty-field-list error never
   * fires on this table, and every row gives its rule exactly the number of
   * inputs the rule insists on, so no rule fails its field-count check.
   */
  lemma RowsWellFormed()
    ensures |Operations| == 143 && AllWellFormed(Operations)
  {
    DemographicsWellFormed();
    PastDiseases1WellFormed();
    PastDiseases2WellFormed();
    MorePastDiseases1WellFormed();
    MorePastDiseases2WellFormed();
    Medications1WellFormed();
    Medications2WellFormed();
    FamilyDiseases1WellFormed();
    FamilyDiseases2WellFormed();
    BodyMeasures1WellFormed();
    BodyMeasures2WellFormed();
    HabitsWellFormed();
    Laboratory1WellFormed();
    Laboratory2WellFormed();
    AppendWellFormed(Demographics, PastDiseases1);
    AppendWellFormed(Demographics + PastDiseases1, PastDiseases2);
    AppendWellFormed(Demographics + PastDiseases1 + PastDiseases2, MorePastDiseases1);
    AppendWellFormed(Demographics + PastDiseases1 + PastDiseases2 + MorePastDiseases1, MorePastDiseases2);
    AppendWellFormed(Demographics + PastDiseases1 + PastDiseases2 + MorePastDiseases1 + MorePastDiseases2, Medications1);
    AppendWellFormed(Demographics + PastDiseases1 + PastDiseases2 + MorePastDiseases1 + MorePastDiseases2 + Medications1, Medications2);
    AppendWellFormed(Demographics + PastDiseases1 + PastDiseases2 + MorePastDiseases1 + MorePastDiseases2 + Medications1 + Medications2, FamilyDiseases1);
    AppendWellFormed(Demographics + PastDiseases1 + PastDiseases2 + MorePastDiseases1 + MorePastDiseases2 + Medications1 + Medications2 + FamilyDiseases1, FamilyDiseases2);
    AppendWellFormed(Demographics + PastDiseases1 + PastDiseases2 + MorePastDiseases1 + MorePastDiseases2 + Medications1 + Medications2 + FamilyDiseases1 + FamilyDiseases2, BodyMeasures1);
    AppendWellFormed(Demographics + PastDiseases1 + PastDiseases2 + MorePastDiseases1 + MorePastDiseases2 + Medications1 + Medications2 + FamilyDiseases1 + FamilyDiseases2 + BodyMeasures1, BodyMeasures2);
    AppendWellFormed(Demographics + PastDiseases1 + PastDiseases2 + MorePastDiseases1 + MorePastDiseases2 + Medications1 + Medications2 + FamilyDiseases1 + FamilyDiseases2 + BodyMeasures1 + BodyMeasures2, Habits);
    AppendWellFormed(Demographics + PastDiseases1 + PastDiseases2 + MorePastDiseases1 + MorePastDiseases2 + Medications1 + Medications2 + FamilyDiseases1 + FamilyDiseases2 + BodyMeasures1 + BodyMeasures2 + Habits, Laboratory1);
    AppendWellFormed(Demographics + PastDiseases1 + PastDiseases2 + MorePastDiseases1 + MorePastDiseases2 + Medications1 + Medications2 + FamilyDiseases1 + FamilyDiseases2 + BodyMeasures1 + BodyMeasures2 + Habits + Laboratory1, Laboratory2);
  }
}
