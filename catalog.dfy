/** The static catalog the pages read: products, category cards and sub-category lists. */
module Catalog {
  import opened Types

  /** A category card: its name and the hero image shown for it. */
  datatype CategoryCard = CategoryCard(name: string, image: string)

  const CATEGORIES: seq<CategoryCard> := [
    CategoryCard("Floral", "https://images.unsplash.com/photo-1582794543139-8ac9cb0f7b11?auto=format&fit=crop&q=80&w=600"),
    CategoryCard("Abstract", "https://images.unsplash.com/photo-1541701494587-cb58502866ab?auto=format&fit=crop&q=80&w=600"),
    CategoryCard("Modern", "https://images.unsplash.com/photo-1614850523296-d8c1af93d400?auto=format&fit=crop&q=80&w=600"),
    CategoryCard("Traditional", "https://images.unsplash.com/photo-1560448204-603b3fc33ddc?auto=format&fit=crop&q=80&w=600"),
    CategoryCard("Nature", "https://images.unsplash.com/photo-1441974231531-c6227db76b6e?auto=format&fit=crop&q=80&w=600"),
    CategoryCard("Kids", "https://images.unsplash.com/photo-1533090161767-e6ffed986c88?auto=format&fit=crop&q=80&w=600")
  ]

  /** Category name to its sub-categories; only three categories have an entry. */
  const SUB_CATEGORIES: map<string, seq<string>> := map[
    "Modern" := ["Geometric", "Minimalistic", "Urban", "Industrial"],
    "Floral" := ["Vintage", "Tropical", "Botanical", "Dainty"],
    "Abstract" := ["Concept", "Fluid", "Textured", "Gradient"]
  ]

  /** The product records; every price is 75.65 rupees, i.e. 7565 paise. */
  const MOCK_WALLPAPERS: seq<Wallpaper> := [
    Wallpaper("1", "Black Beige Textured Horizontal", 7565,
              "https://images.unsplash.com/photo-1620641788421-7a1c342ea42e?auto=format&fit=crop&q=80&w=600",
              "Abstract", "Office", "Concept Design", Matte, "Bold", "Beige"),
    Wallpaper("2", "Distressed Vertical Texture Beige", 7565,
              "https://images.unsplash.com/photo-1615529182904-14819c35db37?auto=format&fit=crop&q=80&w=600",
              "Abstract", "Living Room", "Concept Design", Matte, "Calm", "Beige"),
    Wallpaper("3", "Abstract Fringed Vertical Blue", 7565,
              "https://images.unsplash.com/photo-1614850523296-d8c1af93d400?auto=format&fit=crop&q=80&w=600",
              "Modern", "Bedroom", "Concept Design", Glossy, "Bold", "Blue"),
    Wallpaper("4", "Geometric Tribal Pattern Beige", 7565,
              "https://images.unsplash.com/photo-1544457070-4cd773b4d71e?auto=format&fit=crop&q=80&w=600",
              "Traditional", "Living Room", "Concept Design", Matte, "Bold", "Beige"),
    Wallpaper("5", "Abstract Geometric Kilim Grey", 7565,
              "https://images.unsplash.com/photo-1618005182384-a83a8bd57fbe?auto=format&fit=crop&q=80&w=600",
              "Modern", "Living Room", "Concept Design", Matte, "Sophisticated", "Grey"),
    Wallpaper("6", "Geometric Pattern Teal Pink", 7565,
              "https://images.unsplash.com/photo-1614850715649-1d0106293bd1?auto=format&fit=crop&q=80&w=600",
              "Modern", "Kids Room", "Pattern Design", Glossy, "Playful", "Pink")
  ]
}
