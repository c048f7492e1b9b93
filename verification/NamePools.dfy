/** The word pools of backend/internal/nicknames/pools_gen.go. */
module NamePools {

  predicate IsHan(c: char) {
    '\U{4E00}' <= c <= '\U{9FFF}'
  }

  predicate IsWord(s: string) {
    0 < |s| <= 4 && forall i :: 0 <= i < |s| ==> IsHan(s[i])
  }

  /** Every pool entry is one to four Han characters; the type makes Dafny check each one. */
  type Word = w: string | IsWord(w) witness "\U{6C14}"

  const ADJECTIVES_1: seq<Word> := [
    "快乐的", "勇敢的", "神秘的", "聪明的", "幸运的", "飞翔的", "闪耀的", "敏捷的",
    "温柔的", "狂野的", "优雅的", "调皮的", "冷静的", "热情的", "沉默的"
  ]

  const ADJECTIVES_2: seq<Word> := [
    "活泼的", "机智的", "憨厚的", "灵巧的", "威武的", "慵懒的", "专注的", "飘逸的",
    "坚定的", "好奇的", "悠闲的", "霸气的", "呆萌的", "睿智的", "潇洒的"
  ]

  const ADJECTIVES_3: seq<Word> := [
    "顽强的", "璀璨的", "朦胧的", "炽热的", "冰冷的", "迅捷的", "沉稳的", "天真的",
    "深沉的", "从容的", "执着的", "豪迈的", "灵动的", "梦幻的", "寂静的"
  ]

  const ADJECTIVES_4: seq<Word> := [
    "奔放的", "细腻的", "豪放的", "清新的", "绚烂的", "悠然的", "坚韧的", "开朗的",
    "内敛的", "浪漫的", "朴实的", "华丽的", "素雅的"
  ]

  const ADJECTIVES: seq<Word> := ADJECTIVES_1 + ADJECTIVES_2 + ADJECTIVES_3 + ADJECTIVES_4

  const ANIMALS_1: seq<Word> := [
    "气球", "老鹰", "海豚", "狐狸", "熊猫", "猫咪", "小鹿", "飞鸟",
    "鲸鱼", "蝴蝶", "松鼠", "兔子", "猫头鹰"
  ]

  const ANIMALS_2: seq<Word> := [
    "企鹅", "海龟", "萤火虫", "刺猬", "海鸥", "燕子", "知更鸟", "独角兽",
    "龙猫", "小熊", "浣熊", "灰狼", "雪豹"
  ]

  const ANIMALS: seq<Word> := ANIMALS_1 + ANIMALS_2

  const JOBS_1: seq<Word> := [
    "探险家", "飞行员", "冒险者", "梦想家", "旅行者", "守护者", "追逐者", "航海家",
    "工程师", "艺术家", "音乐家", "诗人", "骑士"
  ]

  const JOBS_2: seq<Word> := [
    "游侠", "法师", "炼金师", "天文学家", "园丁", "面包师", "钟表匠", "摄影师",
    "收藏家", "建筑师", "工匠", "猎人", "学者"
  ]

  const JOBS: seq<Word> := JOBS_1 + JOBS_2

  const NATURE_1: seq<Word> := [
    "星辰", "月光", "微风", "晨露", "晚霞", "彩虹", "雪花", "阳光",
    "云朵", "海浪", "山峦", "森林", "溪流"
  ]

  const NATURE_2: seq<Word> := [
    "花朵", "落叶", "流星", "极光", "春雨", "夏日", "秋风", "冬雪",
    "朝雾", "星空", "银河", "潮汐", "晨曦"
  ]

  const NATURE: seq<Word> := NATURE_1 + NATURE_2

  const SCIFI_1: seq<Word> := [
    "量子", "光子", "星舰", "虫洞", "星云", "黑洞", "彗星", "卫星",
    "反应堆", "引擎", "芯片", "代码", "像素"
  ]

  const SCIFI_2: seq<Word> := [
    "数据", "信号", "频段", "轨道", "空间站", "传送门", "力场", "激光",
    "等离子", "中子", "超新星", "陨石", "星尘"
  ]

  const SCIFI: seq<Word> := SCIFI_1 + SCIFI_2

  const CATEGORIES: seq<seq<Word>> := [ANIMALS, JOBS, NATURE, SCIFI]
}
